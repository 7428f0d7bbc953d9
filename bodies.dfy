/**
 * The JSON request bodies. Each operation starts from an empty JSON object and `put`s a fixed
 * list of keys in order, each one only when its source field is present. A body is modelled as
 * that list of candidate fields and the object that the conditional puts leave behind.
 */
module Bodies {
  import opened Outcomes
  import opened Models

  /**
   * The values a body can hold. Arrays of educations and past experiences are kept as the
   * records themselves: how org.json reflects them into JSON is not modelled.
   */
  datatype JsonValue =
    | JString(s: string)
    | JBool(b: bool)
    | JStrings(items: seq<string>)
    | JEducations(educations: seq<Education>)
    | JExperiences(experiences: seq<PastExperience>)

  type JsonObject = map<string, JsonValue>

  /** One `put` the source may make: the key, and the value when the guard lets it through. */
  datatype Field = Field(key: string, value: Option<JsonValue>)

  /** A string is put when it is non-null and non-empty. */
  function IfGiven(s: Option<string>): Option<JsonValue> {
    if Given(s) then Some(JString(s.value)) else None
  }

  /** A list of strings is put when it is non-null and non-empty, as a JSON array. */
  function IfGivenList(xs: Option<seq<string>>): Option<JsonValue> {
    if Given(xs) then Some(JStrings(xs.value)) else None
  }

  /** A Boolean is put when it is non-null. */
  function IfSet(b: Option<bool>): Option<JsonValue> {
    if b.Some? then Some(JBool(b.value)) else None
  }

  predicate DistinctKeys(fields: seq<Field>) {
    forall i, j :: 0 <= i < j < |fields| ==> fields[i].key != fields[j].key
  }

  /** The object left by putting, in order, every field whose value is present. */
  function Collect(fields: seq<Field>): JsonObject
    decreases |fields|
  {
    if fields == [] then map[]
    else
      var body := Collect(fields[..|fields| - 1]);
      var last := fields[|fields| - 1];
      if last.value.Some? then body[last.key := last.value.value] else body
  }

  /** A key is in the object exactly when some field with that key was present. */
  lemma {:induction false} CollectHas(fields: seq<Field>, k: string)
    ensures k in Collect(fields) <==>
            exists i :: 0 <= i < |fields| && fields[i].key == k && fields[i].value.Some?
    decreases |fields|
  {
    if fields != [] {
      var init := fields[..|fields| - 1];
      CollectHas(init, k);
      if k in Collect(init) {
        var i :| 0 <= i < |init| && init[i].key == k && init[i].value.Some?;
        assert fields[i] == init[i];
      }
      if exists i :: 0 <= i < |fields| && fields[i].key == k && fields[i].value.Some? {
        var i :| 0 <= i < |fields| && fields[i].key == k && fields[i].value.Some?;
        if i < |init| {
          assert init[i] == fields[i];
        }
      }
    }
  }

  /** With distinct keys, each present field's value is what the object holds under its key. */
  lemma {:induction false} CollectAt(fields: seq<Field>, j: nat)
    requires DistinctKeys(fields) && j < |fields|
    ensures fields[j].key in Collect(fields) <==> fields[j].value.Some?
    ensures fields[j].value.Some? ==> Collect(fields)[fields[j].key] == fields[j].value.value
    decreases |fields|
  {
    var init := fields[..|fields| - 1];
    var last := fields[|fields| - 1];
    if j < |init| {
      assert init[j] == fields[j];
      assert DistinctKeys(init) by {
        forall a, b | 0 <= a < b < |init| ensures init[a].key != init[b].key {
          assert init[a] == fields[a] && init[b] == fields[b];
        }
      }
      CollectAt(init, j);
      assert last.key != fields[j].key;
    } else {
      assert j == |fields| - 1;
      if last.value.None? {
        CollectHas(init, last.key);
        forall i | 0 <= i < |init| ensures init[i].key != last.key {
          assert init[i] == fields[i];
        }
      }
    }
  }

  /** Every key of the object is the key of one of the fields. */
  lemma CollectKeys(fields: seq<Field>, keys: set<string>)
    requires forall i :: 0 <= i < |fields| ==> fields[i].key in keys
    ensures Collect(fields).Keys <= keys
  {
    forall k | k in Collect(fields) ensures k in keys {
      CollectHas(fields, k);
    }
  }

  /** The JSONObject `put` sequence: start empty, put each field whose value is present. */
  method PutPresent(fields: seq<Field>) returns (body: JsonObject)
    ensures body == Collect(fields)
  {
    body := map[];
    for i := 0 to |fields|
      invariant body == Collect(fields[..i])
    {
      assert fields[..i + 1][..i] == fields[..i];
      if fields[i].value.Some? {
        body := body[fields[i].key := fields[i].value.value];
      }
    }
    assert fields[..|fields|] == fields;
  }

  /** `key` is present exactly when the string is non-null and non-empty, and then holds it. */
  predicate StringField(body: JsonObject, key: string, s: Option<string>) {
    (key in body <==> Given(s)) && (key in body ==> body[key] == JString(s.value))
  }

  /** `key` is present exactly when the list is non-null and non-empty, and then holds it. */
  predicate ListField(body: JsonObject, key: string, xs: Option<seq<string>>) {
    (key in body <==> Given(xs)) && (key in body ==> body[key] == JStrings(xs.value))
  }

  /** `key` is present exactly when the flag is non-null, and then holds it. */
  predicate FlagField(body: JsonObject, key: string, b: Option<bool>) {
    (key in body <==> b.Some?) && (key in body ==> body[key] == JBool(b.value))
  }

  /** The fields of the `authenticate` body. */
  function CredentialsFields(email: string, password: string): seq<Field> {
    [Field("email", Some(JString(email))), Field("password", Some(JString(password)))]
  }

  /** The `authenticate` body holds both credentials and nothing else. */
  lemma CredentialsBody(email: string, password: string)
    ensures var body := Collect(CredentialsFields(email, password));
            body.Keys == {"email", "password"}
            && body["email"] == JString(email) && body["password"] == JString(password)
  {
    var fields := CredentialsFields(email, password);
    CollectAt(fields, 0);
    CollectAt(fields, 1);
    CollectKeys(fields, {"email", "password"});
  }

  /** The fields of the `register` body. */
  function RegistrationFields(username: string, email: string, password: string, confirmation: string)
    : seq<Field>
  {
    [Field("username", Some(JString(username))), Field("email", Some(JString(email))),
     Field("password", Some(JString(password))), Field("password2", Some(JString(confirmation)))]
  }

  /** The `register` body holds the four fields, the confirmation under "password2". */
  lemma RegistrationBody(username: string, email: string, password: string, confirmation: string)
    ensures var body := Collect(RegistrationFields(username, email, password, confirmation));
            body.Keys == {"username", "email", "password", "password2"}
            && body["username"] == JString(username) && body["email"] == JString(email)
            && body["password"] == JString(password) && body["password2"] == JString(confirmation)
  {
    var fields := RegistrationFields(username, email, password, confirmation);
    CollectAt(fields, 0);
    CollectAt(fields, 1);
    CollectAt(fields, 2);
    CollectAt(fields, 3);
    CollectKeys(fields, {"username", "email", "password", "password2"});
  }

  const NewProjectKeys: set<string> :=
    {"title", "private", "publicDescription", "privateDescription", "interests", "skills"}

  /**
   * The fields of the `createNewProject` body as written: "title" and "private" always, and
   * "skills", put when the skills are given, holding the project's interests (an empty array when
   * the interests are null, as org.json's JSONArray(Collection) does for null).
   */
  function NewProjectFields(title: string, isPrivate: bool, p: Project): seq<Field> {
    [Field("title", Some(JString(title))),
     Field("private", Some(JBool(isPrivate))),
     Field("publicDescription", IfGiven(p.publicDescription)),
     Field("privateDescription", IfGiven(p.privateDescription)),
     Field("interests", IfGivenList(p.interests)),
     Field("skills", if Given(p.skills) then Some(JStrings(OrEmpty(p.interests))) else None)]
  }

  /** What the as-written `createNewProject` body holds, the misplaced "skills" value included. */
  lemma NewProjectBody(title: string, isPrivate: bool, p: Project)
    ensures var body := Collect(NewProjectFields(title, isPrivate, p));
            body.Keys <= NewProjectKeys
            && "title" in body && body["title"] == JString(title)
            && "private" in body && body["private"] == JBool(isPrivate)
            && StringField(body, "publicDescription", p.publicDescription)
            && StringField(body, "privateDescription", p.privateDescription)
            && ListField(body, "interests", p.interests)
            && ("skills" in body <==> Given(p.skills))
            && ("skills" in body ==> body["skills"] == JStrings(OrEmpty(p.interests)))
  {
    var fields := NewProjectFields(title, isPrivate, p);
    CollectAt(fields, 0);
    CollectAt(fields, 1);
    CollectAt(fields, 2);
    CollectAt(fields, 3);
    CollectAt(fields, 4);
    CollectAt(fields, 5);
    CollectKeys(fields, NewProjectKeys);
  }

  /** A project whose interests are ["go"] and skills ["rust"] is sent with skills ["go"]. */
  lemma NewProjectSkillsFromInterests()
    ensures var p := Project(None, Some("T"), None, None, Some(["go"]), Some(["rust"]), Some(false));
            Collect(NewProjectFields("T", false, p))["skills"] == JStrings(["go"])
  {
    var p := Project(None, Some("T"), None, None, Some(["go"]), Some(["rust"]), Some(false));
    CollectAt(NewProjectFields("T", false, p), 5);
  }

  /** The fields of the `createNewProject` body as evidently intended: "skills" holds the skills. */
  function NewProjectFieldsIntended(title: string, isPrivate: bool, p: Project): seq<Field> {
    [Field("title", Some(JString(title))),
     Field("private", Some(JBool(isPrivate))),
     Field("publicDescription", IfGiven(p.publicDescription)),
     Field("privateDescription", IfGiven(p.privateDescription)),
     Field("interests", IfGivenList(p.interests)),
     Field("skills", IfGivenList(p.skills))]
  }

  /** The intended `createNewProject` body sends every list field under its own key. */
  lemma NewProjectBodyIntended(title: string, isPrivate: bool, p: Project)
    ensures var body := Collect(NewProjectFieldsIntended(title, isPrivate, p));
            body.Keys <= NewProjectKeys
            && "title" in body && body["title"] == JString(title)
            && "private" in body && body["private"] == JBool(isPrivate)
            && StringField(body, "publicDescription", p.publicDescription)
            && StringField(body, "privateDescription", p.privateDescription)
            && ListField(body, "interests", p.interests)
            && ListField(body, "skills", p.skills)
  {
    var fields := NewProjectFieldsIntended(title, isPrivate, p);
    CollectAt(fields, 0);
    CollectAt(fields, 1);
    CollectAt(fields, 2);
    CollectAt(fields, 3);
    CollectAt(fields, 4);
    CollectAt(fields, 5);
    CollectKeys(fields, NewProjectKeys);
  }

  const ProjectUpdateKeys: set<string> :=
    {"title", "publicDescription", "privateDescription", "private", "interests", "skills"}

  /** The fields of the `updateProject` body; the privacy flag is sent as "private". */
  function ProjectUpdateFields(p: Project): seq<Field> {
    [Field("title", IfGiven(p.title)),
     Field("publicDescription", IfGiven(p.publicDescription)),
     Field("privateDescription", IfGiven(p.privateDescription)),
     Field("private", IfSet(p.isPrivate)),
     Field("interests", IfGivenList(p.interests)),
     Field("skills", IfGivenList(p.skills))]
  }

  /** The `updateProject` body has a key exactly for each given field, and no other key. */
  lemma ProjectUpdateBody(p: Project)
    ensures var body := Collect(ProjectUpdateFields(p));
            body.Keys <= ProjectUpdateKeys
            && StringField(body, "title", p.title)
            && StringField(body, "publicDescription", p.publicDescription)
            && StringField(body, "privateDescription", p.privateDescription)
            && FlagField(body, "private", p.isPrivate)
            && ListField(body, "interests", p.interests)
            && ListField(body, "skills", p.skills)
  {
    var fields := ProjectUpdateFields(p);
    CollectAt(fields, 0);
    CollectAt(fields, 1);
    CollectAt(fields, 2);
    CollectAt(fields, 3);
    CollectAt(fields, 4);
    CollectAt(fields, 5);
    CollectKeys(fields, ProjectUpdateKeys);
  }

  const ProfileKeys: set<string> :=
    {"firstName", "lastName", "interests", "skills", "education", "pastExperience",
     "github", "facebook", "instagram", "linkedin", "twitter"}

  /**
   * The fields of the `createOwnProfile` and `updateOwnProfile` body: educations are sent as
   * "education", past experiences as "pastExperience" and linkedIn as "linkedin".
   */
  function ProfileFields(p: Profile): seq<Field> {
    [Field("firstName", IfGiven(p.firstName)),
     Field("lastName", IfGiven(p.lastName)),
     Field("interests", IfGivenList(p.interests)),
     Field("skills", IfGivenList(p.skills)),
     Field("education", if Given(p.educations) then Some(JEducations(p.educations.value)) else None),
     Field("pastExperience",
           if Given(p.pastExperiences) then Some(JExperiences(p.pastExperiences.value)) else None),
     Field("github", IfGiven(p.github)),
     Field("facebook", IfGiven(p.facebook)),
     Field("instagram", IfGiven(p.instagram)),
     Field("linkedin", IfGiven(p.linkedIn)),
     Field("twitter", IfGiven(p.twitter))]
  }

  lemma ProfileKeysDistinct(p: Profile)
    ensures DistinctKeys(ProfileFields(p))
  {
  }

  /** The profile body has a key exactly for each given field, and no other key. */
  lemma ProfileBody(p: Profile)
    ensures var body := Collect(ProfileFields(p));
            body.Keys <= ProfileKeys
            && StringField(body, "firstName", p.firstName)
            && StringField(body, "lastName", p.lastName)
            && ListField(body, "interests", p.interests)
            && ListField(body, "skills", p.skills)
            && ("education" in body <==> Given(p.educations))
            && ("education" in body ==> body["education"] == JEducations(p.educations.value))
            && ("pastExperience" in body <==> Given(p.pastExperiences))
            && ("pastExperience" in body ==>
                  body["pastExperience"] == JExperiences(p.pastExperiences.value))
            && StringField(body, "github", p.github)
            && StringField(body, "facebook", p.facebook)
            && StringField(body, "instagram", p.instagram)
            && StringField(body, "linkedin", p.linkedIn)
            && StringField(body, "twitter", p.twitter)
  {
    var fields := ProfileFields(p);
    ProfileKeysDistinct(p);
    var body := Collect(fields);
    assert StringField(body, "firstName", p.firstName) by { CollectAt(fields, 0); }
    assert StringField(body, "lastName", p.lastName) by { CollectAt(fields, 1); }
    assert ListField(body, "interests", p.interests) by { CollectAt(fields, 2); }
    assert ListField(body, "skills", p.skills) by { CollectAt(fields, 3); }
    assert ("education" in body <==> Given(p.educations))
        && ("education" in body ==> body["education"] == JEducations(p.educations.value))
    by { CollectAt(fields, 4); }
    assert ("pastExperience" in body <==> Given(p.pastExperiences))
        && ("pastExperience" in body ==>
              body["pastExperience"] == JExperiences(p.pastExperiences.value))
    by { CollectAt(fields, 5); }
    assert StringField(body, "github", p.github) by { CollectAt(fields, 6); }
    assert StringField(body, "facebook", p.facebook) by { CollectAt(fields, 7); }
    assert StringField(body, "instagram", p.instagram) by { CollectAt(fields, 8); }
    assert StringField(body, "linkedin", p.linkedIn) by { CollectAt(fields, 9); }
    assert StringField(body, "twitter", p.twitter) by { CollectAt(fields, 10); }
    CollectKeys(fields, ProfileKeys);
  }
}
