/** The plain data holders the operations read from. Every Java field may be null. */
module Models {
  import opened Outcomes

  /** A java.util.Date, kept opaque: only its value in milliseconds. */
  datatype Date = Date(millis: int)

  datatype Education = Education(
    instituteName: Option<string>,
    degree: Option<string>,
    fieldOfStudy: Option<string>,
    fromDate: Option<Date>,
    endDate: Option<Date>,
    description: Option<string>)

  datatype PastExperience = PastExperience(
    company: Option<string>,
    jobTitle: Option<string>,
    location: Option<string>,
    fromDate: Option<Date>,
    endDate: Option<Date>,
    description: Option<string>)

  datatype Project = Project(
    id: Option<string>,
    title: Option<string>,
    publicDescription: Option<string>,
    privateDescription: Option<string>,
    interests: Option<seq<string>>,
    skills: Option<seq<string>>,
    isPrivate: Option<bool>)

  datatype Profile = Profile(
    firstName: Option<string>,
    lastName: Option<string>,
    interests: Option<seq<string>>,
    skills: Option<seq<string>>,
    educations: Option<seq<Education>>,
    pastExperiences: Option<seq<PastExperience>>,
    github: Option<string>,
    facebook: Option<string>,
    linkedIn: Option<string>,
    twitter: Option<string>,
    instagram: Option<string>,
    accountId: Option<string>)

  datatype ProjectFilter = ProjectFilter(
    title: Option<string>,
    isPublic: Option<bool>,
    isPrivate: Option<bool>,
    skills: Option<seq<string>>,
    interests: Option<seq<string>>)

  /** `s != null && !s.isEmpty()` for a string or a list. */
  predicate Given<T>(s: Option<seq<T>>) {
    s.Some? && |s.value| > 0
  }

  /** The elements of a list, or none when the list is null. */
  function OrEmpty<T>(s: Option<seq<T>>): seq<T> {
    if s.Some? then s.value else []
  }
}
