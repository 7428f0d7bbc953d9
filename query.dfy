/**
 * The URL of `getAllProjects`: the route, `?`, then one `key=value&` piece per filter criterion
 * in a fixed order, list criteria giving one piece per element.
 */
module ProjectQuery {
  import opened Outcomes
  import opened Models
  import Endpoints

  /** `String.valueOf(Boolean)`. */
  function BoolText(b: bool): string {
    if b then "true" else "false"
  }

  /** One `key=value&` piece. */
  function Piece(key: string, value: string): string {
    key + value + "&"
  }

  /** One piece per element of the list, in list order. */
  function Repeated(key: string, xs: seq<string>): (pieces: seq<string>)
    ensures |pieces| == |xs|
  {
    seq(|xs|, i requires 0 <= i < |xs| => Piece(key, xs[i]))
  }

  /** The pieces for the title and the two flags, each present only when set. */
  function ScalarPieces(f: ProjectFilter): seq<string> {
    (if Given(f.title) then [Piece("title=", f.title.value)] else [])
    + (if f.isPublic.Some? then [Piece("public=", BoolText(f.isPublic.value))] else [])
    + (if f.isPrivate.Some? then [Piece("private=", BoolText(f.isPrivate.value))] else [])
  }

  /** The pieces of the query string, in the order the builder appends them. */
  function QueryPieces(f: ProjectFilter): seq<string> {
    ScalarPieces(f)
    + Repeated("interests[]=", OrEmpty(f.interests))
    + Repeated("skills[]=", OrEmpty(f.skills))
  }

  /** The concatenation of the pieces, as the StringBuilder accumulates them. */
  function Join(pieces: seq<string>): string
    decreases |pieces|
  {
    if pieces == [] then "" else Join(pieces[..|pieces| - 1]) + pieces[|pieces| - 1]
  }

  /** Appending one more piece to the builder extends the joined pieces by that piece. */
  lemma JoinSnoc(pieces: seq<string>, p: string)
    ensures Join(pieces + [p]) == Join(pieces) + p
  {
    assert (pieces + [p])[..|pieces|] == pieces;
  }

  lemma {:induction false} JoinAppend(a: seq<string>, b: seq<string>)
    ensures Join(a + b) == Join(a) + Join(b)
    decreases |b|
  {
    if b == [] {
      assert a + b == a;
    } else {
      var b' := b[..|b| - 1];
      var z := b[|b| - 1];
      assert a + b == (a + b') + [z];
      JoinSnoc(a + b', z);
      JoinAppend(a, b');
      JoinSnoc(b', z);
      assert b == b' + [z];
      calc {
        Join(a + b);
        Join(a + b') + z;
        (Join(a) + Join(b')) + z;
        Join(a) + (Join(b') + z);
        Join(a) + Join(b);
      }
    }
  }

  function AllProjectsUrl(f: ProjectFilter): string {
    Endpoints.Endpoint(Endpoints.GetAllProjects).route + "?" + Join(QueryPieces(f))
  }

  /** Appends one piece per element of `xs` to `url`, as the source's for-each loops do. */
  method AppendEach(url: string, key: string, xs: seq<string>) returns (out: string)
    ensures out == url + Join(Repeated(key, xs))
  {
    out := url;
    for i := 0 to |xs|
      invariant out == url + Join(Repeated(key, xs[..i]))
    {
      assert Repeated(key, xs[..i + 1]) == Repeated(key, xs[..i]) + [Piece(key, xs[i])];
      JoinSnoc(Repeated(key, xs[..i]), Piece(key, xs[i]));
      out := out + Piece(key, xs[i]);
    }
    assert xs[..|xs|] == xs;
  }

  /** One builder step: appending a piece keeps the text equal to the head and the joined pieces. */
  lemma AppendPiece(url: string, head: string, pieces: seq<string>, p: string)
    requires url == head + Join(pieces)
    ensures url + p == head + Join(pieces + [p])
  {
    JoinSnoc(pieces, p);
  }

  /** A run of builder steps: appending joined pieces keeps the same correspondence. */
  lemma AppendPieces(url: string, head: string, pieces: seq<string>, more: seq<string>)
    requires url == head + Join(pieces)
    ensures url + Join(more) == head + Join(pieces + more)
  {
    JoinAppend(pieces, more);
  }

  /** Appends the title, public and private pieces, each only when the criterion is set. */
  method AppendScalars(url: string, f: ProjectFilter) returns (out: string)
    ensures out == url + Join(ScalarPieces(f))
  {
    out := url;
    ghost var pieces: seq<string> := [];
    assert out == url + Join(pieces);
    if Given(f.title) {
      var p := Piece("title=", f.title.value);
      AppendPiece(out, url, pieces, p);
      out, pieces := out + p, pieces + [p];
    }
    if f.isPublic.Some? {
      var p := Piece("public=", BoolText(f.isPublic.value));
      AppendPiece(out, url, pieces, p);
      out, pieces := out + p, pieces + [p];
    }
    if f.isPrivate.Some? {
      var p := Piece("private=", BoolText(f.isPrivate.value));
      AppendPiece(out, url, pieces, p);
      out, pieces := out + p, pieces + [p];
    }
    assert pieces == ScalarPieces(f);
  }

  /** Appends one piece per element of a list criterion, or nothing when it is null or empty. */
  method AppendList(url: string, key: string, xs: Option<seq<string>>) returns (out: string)
    ensures out == url + Join(Repeated(key, OrEmpty(xs)))
  {
    if Given(xs) {
      out := AppendEach(url, key, xs.value);
    } else {
      out := url;
      assert Repeated(key, OrEmpty(xs)) == [];
    }
  }

  /** The StringBuilder that `getAllProjects` fills from a (non-null) filter. */
  method BuildAllProjectsUrl(f: ProjectFilter) returns (url: string)
    ensures url == AllProjectsUrl(f)
  {
    var head := Endpoints.Endpoint(Endpoints.GetAllProjects).route + "?";
    var scalars := ScalarPieces(f);
    var interests := Repeated("interests[]=", OrEmpty(f.interests));
    var skills := Repeated("skills[]=", OrEmpty(f.skills));
    url := AppendScalars(head, f);
    AppendPieces(url, head, scalars, interests);
    url := AppendList(url, "interests[]=", f.interests);
    AppendPieces(url, head, scalars + interests, skills);
    url := AppendList(url, "skills[]=", f.skills);
  }

  /** A filter with every criterion null or empty gives the route followed by `?` alone. */
  lemma EmptyFilterUrl(f: ProjectFilter)
    ensures QueryPieces(f) == [] <==>
            !Given(f.title) && f.isPublic.None? && f.isPrivate.None?
            && !Given(f.interests) && !Given(f.skills)
    ensures QueryPieces(f) == [] ==>
            AllProjectsUrl(f) == Endpoints.Endpoint(Endpoints.GetAllProjects).route + "?"
  {
    if QueryPieces(f) == [] {
      assert |ScalarPieces(f)| == 0;
    }
  }

  /** Every piece is a `key=value` ending in `&`. */
  lemma PiecesEndWithAmpersand(f: ProjectFilter)
    ensures forall i :: 0 <= i < |QueryPieces(f)| ==>
              |QueryPieces(f)[i]| > 0 && QueryPieces(f)[i][|QueryPieces(f)[i]| - 1] == '&'
  {
  }

  /** The number of pieces that start with `prefix`. */
  function CountPrefixed(pieces: seq<string>, prefix: string): nat
    decreases |pieces|
  {
    if pieces == [] then 0
    else
      (if prefix <= pieces[0] then 1 else 0) + CountPrefixed(pieces[1..], prefix)
  }

  lemma {:induction false} CountPrefixedAppend(a: seq<string>, b: seq<string>, prefix: string)
    ensures CountPrefixed(a + b, prefix) == CountPrefixed(a, prefix) + CountPrefixed(b, prefix)
    decreases |a|
  {
    if a == [] {
      assert a + b == b;
    } else {
      assert (a + b)[1..] == a[1..] + b;
      CountPrefixedAppend(a[1..], b, prefix);
    }
  }

  /** Pieces built with `key` all start with `prefix` when `prefix` starts `key`, else none do. */
  lemma {:induction false} CountRepeated(key: string, xs: seq<string>, prefix: string)
    ensures prefix <= key ==> CountPrefixed(Repeated(key, xs), prefix) == |xs|
    ensures (|prefix| > 0 && |key| > 0 && prefix[0] != key[0]) ==>
              CountPrefixed(Repeated(key, xs), prefix) == 0
    decreases |xs|
  {
    if xs != [] {
      assert Repeated(key, xs)[1..] == Repeated(key, xs[1..]);
      assert Repeated(key, xs)[0] == key + xs[0] + "&";
      CountRepeated(key, xs[1..], prefix);
    }
  }

  /** The URL carries exactly one `interests[]=` piece per interest. */
  lemma InterestPieceCount(f: ProjectFilter)
    ensures CountPrefixed(QueryPieces(f), "interests[]=") == |OrEmpty(f.interests)|
  {
    var prefix := "interests[]=";
    var scalars := ScalarPieces(f);
    var interests := Repeated("interests[]=", OrEmpty(f.interests));
    var skills := Repeated("skills[]=", OrEmpty(f.skills));
    assert CountPrefixed(scalars, prefix) == 0 by {
      ScalarsAvoid(scalars, prefix);
    }
    assert CountPrefixed(interests, prefix) == |OrEmpty(f.interests)| by {
      CountRepeated("interests[]=", OrEmpty(f.interests), prefix);
    }
    assert CountPrefixed(skills, prefix) == 0 by {
      CountRepeated("skills[]=", OrEmpty(f.skills), prefix);
    }
    CountPrefixedAppend(scalars, interests, prefix);
    CountPrefixedAppend(scalars + interests, skills, prefix);
  }

  /** The URL carries exactly one `skills[]=` piece per skill. */
  lemma SkillPieceCount(f: ProjectFilter)
    ensures CountPrefixed(QueryPieces(f), "skills[]=") == |OrEmpty(f.skills)|
  {
    var prefix := "skills[]=";
    var scalars := ScalarPieces(f);
    var interests := Repeated("interests[]=", OrEmpty(f.interests));
    var skills := Repeated("skills[]=", OrEmpty(f.skills));
    assert CountPrefixed(scalars, prefix) == 0 by {
      ScalarsAvoid(scalars, prefix);
    }
    assert CountPrefixed(interests, prefix) == 0 by {
      CountRepeated("interests[]=", OrEmpty(f.interests), prefix);
    }
    assert CountPrefixed(skills, prefix) == |OrEmpty(f.skills)| by {
      CountRepeated("skills[]=", OrEmpty(f.skills), prefix);
    }
    CountPrefixedAppend(scalars, interests, prefix);
    CountPrefixedAppend(scalars + interests, skills, prefix);
  }

  /** No piece counts when none starts with the prefix's first character. */
  lemma {:induction false} ScalarsAvoid(pieces: seq<string>, prefix: string)
    requires |prefix| > 0
    requires forall i :: 0 <= i < |pieces| ==> |pieces[i]| > 0 && pieces[i][0] != prefix[0]
    ensures CountPrefixed(pieces, prefix) == 0
    decreases |pieces|
  {
    if pieces != [] {
      ScalarsAvoid(pieces[1..], prefix);
    }
  }

  /** The interests appear in list order, right after the title and flag pieces. */
  lemma InterestPiecesInOrder(f: ProjectFilter, i: nat)
    requires i < |OrEmpty(f.interests)|
    ensures QueryPieces(f)[|ScalarPieces(f)| + i] == "interests[]=" + OrEmpty(f.interests)[i] + "&"
  {
  }

  /** The filter {interests: ["go", "rust"]} asks for exactly those two interests, in order. */
  lemma TwoInterestsUrl()
    ensures var f := ProjectFilter(None, None, None, None, Some(["go", "rust"]));
            AllProjectsUrl(f) == Endpoints.Endpoint(Endpoints.GetAllProjects).route + "?"
                                 + "interests[]=go&" + "interests[]=rust&"
  {
    var f := ProjectFilter(None, None, None, None, Some(["go", "rust"]));
    var p1, p2 := Piece("interests[]=", "go"), Piece("interests[]=", "rust");
    assert QueryPieces(f) == [p1, p2];
    JoinSnoc([], p1);
    JoinSnoc([p1], p2);
    assert [p1] + [p2] == [p1, p2];
  }
}
