/** Filling the parameters of an operation's route template
    (controller/assistant_admin_operations.go). */
module OperationPath {
  import opened Basics

  // ----- Splitting and joining on slashes -----------------------------------

  function Split(s: string): (r: seq<string>)
    ensures |r| >= 1
  {
    if s == "" then [""]
    else if s[0] == '/' then [""] + Split(s[1..])
    else
      var rest := Split(s[1..]);
      [[s[0]] + rest[0]] + rest[1..]
  }

  function Join(segments: seq<string>): string {
    if segments == [] then ""
    else if |segments| == 1 then segments[0]
    else segments[0] + "/" + Join(segments[1..])
  }

  ghost predicate NoSlash(segments: seq<string>) {
    segments != [] ==> '/' !in segments[0] && NoSlash(segments[1..])
  }

  lemma {:induction false} SplitHasNoSlash(s: string)
    ensures NoSlash(Split(s))
  {
    if s != "" {
      SplitHasNoSlash(s[1..]);
      if s[0] != '/' {
        var r := Split(s);
        assert r[1..] == Split(s[1..])[1..];
      }
    }
  }

  lemma {:induction false} JoinSplit(s: string)
    ensures Join(Split(s)) == s
  {
    if s != "" {
      JoinSplit(s[1..]);
      var r := Split(s);
      var rest := Split(s[1..]);
      if s[0] == '/' {
        assert r[1..] == rest;
      } else {
        assert r[1..] == rest[1..];
        assert |rest| > 1 ==> [s[0]] + (rest[0] + "/" + Join(rest[1..])) == [s[0]] + rest[0] + "/" + Join(rest[1..]);
      }
    }
  }

  lemma {:induction false} SplitPlain(s: string)
    requires '/' !in s
    ensures Split(s) == [s]
  {
    if s != "" {
      SplitPlain(s[1..]);
      assert [s[0]] + s[1..] == s;
    }
  }

  lemma {:induction false} SplitFirst(s: string, rest: string)
    requires '/' !in s
    ensures Split(s + "/" + rest) == [s] + Split(rest)
  {
    var all := s + "/" + rest;
    if s == "" {
      assert all == "/" + rest;
      assert all[1..] == rest;
    } else {
      assert all[1..] == s[1..] + "/" + rest;
      SplitFirst(s[1..], rest);
      assert [s[0]] + s[1..] == s;
    }
  }

  lemma {:induction false} SplitJoin(segments: seq<string>)
    requires segments != [] && NoSlash(segments)
    ensures Split(Join(segments)) == segments
  {
    if |segments| == 1 {
      SplitPlain(segments[0]);
    } else {
      SplitJoin(segments[1..]);
      SplitFirst(segments[0], Join(segments[1..]));
    }
  }

  // ----- Templates ----------------------------------------------------------

  predicate IsParameter(segment: string) {
    segment != "" && segment[0] == ':'
  }

  predicate IsWildcard(segment: string) {
    segment != "" && segment[0] == '*'
  }

  predicate IsControl(c: char) {
    c < ' ' || '\U{7F}' <= c <= '\U{9F}'
  }

  /** A value that stays one literal path segment. */
  predicate Literal(value: string) {
    && value != "." && value != ".."
    && (forall c :: c in value ==> c !in "/\\%?#" && !IsControl(c))
  }

  type Parameters = map<string, string>

  datatype Error = NotAnObject | NotStrings | Wildcard | Required(name: string) | NotLiteral | Unexpected

  datatype Result<T> = Ok(value: T) | Err(error: Error)

  /** The decoded path_params argument: absent, an object whose members may or may
      not be strings, or something else. */
  datatype Raw = Absent | Object(members: map<string, Option<string>>) | Other

  function StringMap(raw: Raw): (r: Result<Parameters>)
    ensures r.Ok? <==> raw.Absent? || (raw.Object? && None !in raw.members.Values)
    ensures r.Ok? && raw.Object? ==>
              forall k, v :: (k in r.value && r.value[k] == v) <==> (k in raw.members && raw.members[k] == Some(v))
    ensures r.Ok? && raw.Absent? ==> r.value == map[]
  {
    match raw
    case Absent => Ok(map[])
    case Other => Err(NotAnObject)
    case Object(members) =>
      if exists k :: k in members && members[k].None? then Err(NotStrings)
      else Ok(map k | k in members :: members[k].value)
  }

  function Problem(segment: string, parameters: Parameters): Option<Error> {
    if IsWildcard(segment) then Some(Wildcard)
    else if !IsParameter(segment) then None
    else if segment[1..] !in parameters || parameters[segment[1..]] == "" then Some(Required(segment[1..]))
    else if !Literal(parameters[segment[1..]]) then Some(NotLiteral)
    else None
  }

  function FirstProblem(segments: seq<string>, parameters: Parameters): Option<Error> {
    if segments == [] then None
    else if Problem(segments[0], parameters).Some? then Problem(segments[0], parameters)
    else FirstProblem(segments[1..], parameters)
  }

  function Names(segments: seq<string>): seq<string> {
    if segments == [] then []
    else if IsParameter(segments[0]) then [segments[0][1..]] + Names(segments[1..])
    else Names(segments[1..])
  }

  function Put(segment: string, parameters: Parameters): string {
    if IsParameter(segment) && segment[1..] in parameters then parameters[segment[1..]] else segment
  }

  function Filled(segments: seq<string>, parameters: Parameters): (r: seq<string>)
    ensures |r| == |segments|
  {
    if segments == [] then [] else [Put(segments[0], parameters)] + Filled(segments[1..], parameters)
  }

  function Expanded(template: string, parameters: Parameters): Result<string> {
    var segments := Split(template);
    var problem := FirstProblem(segments, parameters);
    if problem.Some? then Err(problem.value)
    else if |Names(segments)| != |parameters| then Err(Unexpected)
    else Ok(Join(Filled(segments, parameters)))
  }

  lemma {:induction false} NamesSnoc(segments: seq<string>, segment: string)
    ensures Names(segments + [segment]) == Names(segments) + if IsParameter(segment) then [segment[1..]] else []
  {
    if segments == [] {
      assert [segment][1..] == [];
      assert segments + [segment] == [segment];
    } else {
      assert (segments + [segment])[1..] == segments[1..] + [segment];
      NamesSnoc(segments[1..], segment);
    }
  }

  lemma {:induction false} FilledSnoc(segments: seq<string>, segment: string, parameters: Parameters)
    ensures Filled(segments + [segment], parameters) == Filled(segments, parameters) + [Put(segment, parameters)]
  {
    if segments == [] {
      assert [segment][1..] == [];
      assert segments + [segment] == [segment];
    } else {
      assert (segments + [segment])[1..] == segments[1..] + [segment];
      FilledSnoc(segments[1..], segment, parameters);
    }
  }

  /** What the first i segments contribute. */
  ghost predicate Done(segments: seq<string>, parameters: Parameters, i: nat, filled: seq<string>, used: int) {
    && i <= |segments|
    && filled == Filled(segments[..i], parameters) + segments[i..]
    && used == |Names(segments[..i])|
    && FirstProblem(segments, parameters) == FirstProblem(segments[i..], parameters)
  }

  lemma {:induction false} OneMore(
    segments: seq<string>, parameters: Parameters, i: nat, filled: seq<string>, used: int)
    requires Done(segments, parameters, i, filled, used) && i < |segments|
    ensures |filled| == |segments| && filled[i] == segments[i]
    ensures Problem(segments[i], parameters).Some? ==>
              FirstProblem(segments, parameters) == Problem(segments[i], parameters)
    ensures Problem(segments[i], parameters).None?
            ==> Done(segments, parameters, i + 1, filled[i := Put(segments[i], parameters)],
                     used + if IsParameter(segments[i]) then 1 else 0)
  {
    var segment := segments[i];
    assert segments[..i + 1] == segments[..i] + [segment];
    assert segments[i..][1..] == segments[i + 1..];
    NamesSnoc(segments[..i], segment);
    FilledSnoc(segments[..i], segment, parameters);
  }

  lemma {:induction false} AllDone(segments: seq<string>, parameters: Parameters, filled: seq<string>, used: int)
    requires Done(segments, parameters, |segments|, filled, used)
    ensures filled == Filled(segments, parameters) && used == |Names(segments)|
    ensures FirstProblem(segments, parameters).None?
  {
    assert segments[..|segments|] == segments && segments[|segments|..] == [];
  }

  method Expand(template: string, parameters: Parameters) returns (r: Result<string>)
    ensures r == Expanded(template, parameters)
  {
    var segments := Split(template);
    ghost var original := segments;
    var used := 0;
    var i := 0;
    assert original[..0] == [] && original[0..] == original;
    while i < |segments|
      invariant 0 <= i <= |segments| == |original|
      invariant Done(original, parameters, i, segments, used)
    {
      OneMore(original, parameters, i, segments, used);
      var segment := segments[i];
      if IsWildcard(segment) {
        return Err(Wildcard);
      }
      if IsParameter(segment) {
        var name := segment[1..];
        if name !in parameters || parameters[name] == "" {
          return Err(Required(name));
        }
        if !Literal(parameters[name]) {
          return Err(NotLiteral);
        }
        segments := segments[i := parameters[name]];
        used := used + 1;
      }
      i := i + 1;
    }
    AllDone(original, parameters, segments, used);
    if used != |parameters| {
      return Err(Unexpected);
    }
    return Ok(Join(segments));
  }

  method Path(template: string, raw: Raw) returns (r: Result<string>)
    ensures StringMap(raw).Err? ==> r == Err(StringMap(raw).error)
    ensures StringMap(raw).Ok? ==> r == Expanded(template, StringMap(raw).value)
  {
    var decoded := StringMap(raw);
    if decoded.Err? {
      return Err(decoded.error);
    }
    r := Expand(template, decoded.value);
  }

  /** The names a template asks for, wildcards included. */
  function Asked(segments: seq<string>): seq<string> {
    if segments == [] then []
    else if IsParameter(segments[0]) || IsWildcard(segments[0]) then [segments[0][1..]] + Asked(segments[1..])
    else Asked(segments[1..])
  }

  method PathParameters(template: string) returns (r: seq<string>)
    ensures r == Asked(Split(template))
    ensures (forall s :: s in Split(template) ==> !IsWildcard(s)) ==> r == Names(Split(template))
  {
    var segments := Split(template);
    r := [];
    var i := 0;
    while i < |segments|
      invariant 0 <= i <= |segments|
      invariant Asked(segments) == r + Asked(segments[i..])
    {
      assert segments[i..][1..] == segments[i + 1..];
      if IsParameter(segments[i]) || IsWildcard(segments[i]) {
        r := r + [segments[i][1..]];
      }
      i := i + 1;
    }
    AskedIsNames(segments);
  }

  lemma {:induction false} AskedIsNames(segments: seq<string>)
    ensures (forall s :: s in segments ==> !IsWildcard(s)) ==> Asked(segments) == Names(segments)
  {
    if segments != [] && forall s :: s in segments ==> !IsWildcard(s) {
      assert forall s :: s in segments[1..] ==> s in segments;
      AskedIsNames(segments[1..]);
    }
  }

  // ----- Success, exactly ---------------------------------------------------

  ghost predicate NoWildcard(segments: seq<string>) {
    segments != [] ==> !IsWildcard(segments[0]) && NoWildcard(segments[1..])
  }

  ghost predicate Usable(value: string) {
    value != "" && Literal(value)
  }

  ghost predicate AllUsable(names: seq<string>, parameters: Parameters) {
    names != [] ==> names[0] in parameters && Usable(parameters[names[0]]) && AllUsable(names[1..], parameters)
  }

  lemma {:induction false} NoProblem(segments: seq<string>, parameters: Parameters)
    ensures FirstProblem(segments, parameters).None? <==> NoWildcard(segments) && AllUsable(Names(segments), parameters)
  {
    if segments != [] {
      NoProblem(segments[1..], parameters);
      if IsParameter(segments[0]) {
        assert Names(segments)[1..] == Names(segments[1..]);
      }
    }
  }

  lemma {:induction false} AllUsableMeans(names: seq<string>, parameters: Parameters)
    ensures AllUsable(names, parameters) <==> forall n :: n in names ==> n in parameters && Usable(parameters[n])
  {
    if names != [] {
      AllUsableMeans(names[1..], parameters);
      assert forall n :: n in names <==> n == names[0] || n in names[1..];
    }
  }

  function NameSet(names: seq<string>): set<string> {
    set n | n in names
  }

  lemma {:induction false} DistinctCount(names: seq<string>)
    ensures |NameSet(names)| <= |names|
    ensures |NameSet(names)| == |names| <==> Distinct(names)
  {
    if names == [] {
      assert NameSet(names) == {};
    } else {
      var rest := names[1..];
      DistinctCount(rest);
      assert NameSet(names) == NameSet(rest) + {names[0]};
      assert names == [names[0]] + rest;
      DistinctConcat([names[0]], rest);
      assert Distinct([names[0]]);
    }
  }

  lemma {:induction false} SameSize(a: set<string>, b: set<string>)
    requires a <= b
    ensures |a| == |b| <==> a == b
  {
    var extra := b - a;
    assert b == a + extra && a !! extra;
    assert |b| == |a| + |extra|;
  }

  /** When the template repeats no name, expansion succeeds exactly when the
      template has no wildcard, the keys are its names, and each value is a
      non-empty literal segment. */
  lemma {:induction false} ExpandsExactly(template: string, parameters: Parameters)
    requires Distinct(Names(Split(template)))
    ensures Expanded(template, parameters).Ok?
            <==> NoWildcard(Split(template)) && parameters.Keys == NameSet(Names(Split(template)))
                 && forall n :: n in parameters ==> Usable(parameters[n])
  {
    var names := Names(Split(template));
    NoProblem(Split(template), parameters);
    AllUsableMeans(names, parameters);
    DistinctCount(names);
    if AllUsable(names, parameters) {
      SameSize(NameSet(names), parameters.Keys);
    }
  }

  /** With repeated names the count of segments is compared with the count of
      keys: the surplus of repeats is exactly the number of keys accepted unasked. */
  lemma {:induction false} RepeatsAdmitExtras(template: string, parameters: Parameters)
    ensures Expanded(template, parameters).Ok?
            <==> NoWildcard(Split(template)) && AllUsable(Names(Split(template)), parameters)
                 && |parameters.Keys - NameSet(Names(Split(template)))|
                    == |Names(Split(template))| - |NameSet(Names(Split(template)))|
  {
    var names := Names(Split(template));
    NoProblem(Split(template), parameters);
    AllUsableMeans(names, parameters);
    if AllUsable(names, parameters) {
      var extra := parameters.Keys - NameSet(names);
      assert parameters.Keys == NameSet(names) + extra;
      assert |parameters.Keys| == |NameSet(names)| + |extra|;
    }
  }

  // ----- Matching -----------------------------------------------------------

  /** How the router reads a path back: literal segments equal, a parameter takes
      one non-empty segment, and a repeated name takes its last value. */
  function Match(segments: seq<string>, path: seq<string>): Option<Parameters> {
    if segments == [] then (if path == [] then Some(map[]) else None)
    else if path == [] then None
    else
      var rest := Match(segments[1..], path[1..]);
      if rest.None? then None
      else if !IsParameter(segments[0]) then (if segments[0] == path[0] then rest else None)
      else if path[0] == "" then None
      else Some(map[segments[0][1..] := path[0]] + rest.value)
  }

  ghost predicate Agrees(m: Parameters, parameters: Parameters) {
    forall k :: k in m ==> k in parameters && m[k] == parameters[k]
  }

  lemma {:induction false} FilledMatches(segments: seq<string>, parameters: Parameters)
    requires FirstProblem(segments, parameters).None?
    ensures var m := Match(segments, Filled(segments, parameters));
            m.Some? && m.value.Keys == NameSet(Names(segments)) && Agrees(m.value, parameters)
  {
    if segments != [] {
      FilledMatches(segments[1..], parameters);
      var rest := Match(segments[1..], Filled(segments[1..], parameters)).value;
      assert Filled(segments, parameters)[1..] == Filled(segments[1..], parameters);
      if IsParameter(segments[0]) {
        var name := segments[0][1..];
        assert (map[name := parameters[name]] + rest).Keys == {name} + rest.Keys;
        assert NameSet(Names(segments)) == {name} + NameSet(Names(segments[1..]));
      }
    }
  }

  lemma {:induction false} FilledHasNoSlash(segments: seq<string>, parameters: Parameters)
    requires FirstProblem(segments, parameters).None? && NoSlash(segments)
    ensures NoSlash(Filled(segments, parameters))
  {
    if segments != [] {
      FilledHasNoSlash(segments[1..], parameters);
      assert Filled(segments, parameters)[1..] == Filled(segments[1..], parameters);
      assert '/' in "/\\%?#";
    }
  }

  /** Expanding and matching undo each other: the path has the template's segments
      with the parameters filled in, and matching it gives back every name's value.
      Nothing else was passed exactly when the template repeats no name. */
  lemma {:induction false} ExpandThenMatch(template: string, parameters: Parameters)
    requires Expanded(template, parameters).Ok?
    ensures Split(Expanded(template, parameters).value) == Filled(Split(template), parameters)
    ensures var m := Match(Split(template), Split(Expanded(template, parameters).value));
            && m.Some? && m.value.Keys == NameSet(Names(Split(template))) && Agrees(m.value, parameters)
            && (m.value == parameters <==> Distinct(Names(Split(template))))
  {
    var segments := Split(template);
    SplitHasNoSlash(template);
    FilledHasNoSlash(segments, parameters);
    SplitJoin(Filled(segments, parameters));
    FilledMatches(segments, parameters);
    MatchedAll(Names(segments), Match(segments, Filled(segments, parameters)).value, parameters);
  }

  lemma {:induction false} MatchedAll(names: seq<string>, m: Parameters, parameters: Parameters)
    requires m.Keys == NameSet(names) && Agrees(m, parameters) && |names| == |parameters|
    ensures m == parameters <==> Distinct(names)
  {
    DistinctCount(names);
    assert m.Keys <= parameters.Keys;
    SameSize(m.Keys, parameters.Keys);
    assert |m.Keys| == |m| && |parameters.Keys| == |parameters|;
  }

  lemma {:induction false} MatchKeys(segments: seq<string>, path: seq<string>)
    requires Match(segments, path).Some?
    ensures Match(segments, path).value.Keys == NameSet(Names(segments)) && |segments| == |path|
  {
    if segments != [] {
      MatchKeys(segments[1..], path[1..]);
      if IsParameter(segments[0]) {
        var rest := Match(segments[1..], path[1..]).value;
        var name := segments[0][1..];
        assert (map[name := path[0]] + rest).Keys == {name} + rest.Keys;
        assert NameSet(Names(segments)) == {name} + NameSet(Names(segments[1..]));
      }
    }
  }

  lemma {:induction false} FilledOnlyReadsNames(segments: seq<string>, a: Parameters, b: Parameters)
    requires forall n :: n in Names(segments) ==> n in a && n in b && a[n] == b[n]
    ensures Filled(segments, a) == Filled(segments, b)
  {
    if segments != [] {
      assert forall n :: n in Names(segments[1..]) ==> n in Names(segments);
      FilledOnlyReadsNames(segments[1..], a, b);
    }
  }

  lemma {:induction false} MatchFills(segments: seq<string>, path: seq<string>)
    requires Match(segments, path).Some? && Distinct(Names(segments))
    ensures Filled(segments, Match(segments, path).value) == path
  {
    if segments != [] {
      var rest := Match(segments[1..], path[1..]).value;
      MatchKeys(segments[1..], path[1..]);
      if IsParameter(segments[0]) {
        var name := segments[0][1..];
        assert Names(segments) == [name] + Names(segments[1..]);
        DistinctConcat([name], Names(segments[1..]));
        MatchFills(segments[1..], path[1..]);
        FilledOnlyReadsNames(segments[1..], map[name := path[0]] + rest, rest);
      } else {
        MatchFills(segments[1..], path[1..]);
      }
      assert path == [path[0]] + path[1..];
    }
  }

  lemma {:induction false} MatchIsNotEmpty(segments: seq<string>, path: seq<string>)
    requires Match(segments, path).Some?
    ensures forall n :: n in Match(segments, path).value ==> Match(segments, path).value[n] != ""
  {
    if segments != [] {
      MatchIsNotEmpty(segments[1..], path[1..]);
    }
  }

  /** A path that matches a template without wildcards or repeats, with literal
      values, is exactly what expanding the matched values gives. */
  lemma {:induction false} MatchThenExpand(template: string, path: string)
    requires NoWildcard(Split(template)) && Distinct(Names(Split(template)))
    requires Match(Split(template), Split(path)).Some?
    requires forall n :: n in Match(Split(template), Split(path)).value ==>
               Literal(Match(Split(template), Split(path)).value[n])
    ensures Expanded(template, Match(Split(template), Split(path)).value) == Ok(path)
  {
    var m := Match(Split(template), Split(path)).value;
    MatchKeys(Split(template), Split(path));
    MatchIsNotEmpty(Split(template), Split(path));
    MatchFills(Split(template), Split(path));
    ExpandsExactly(template, m);
    JoinSplit(path);
  }

  /** A repeated name lets an unasked key through, whatever they are. */
  lemma {:induction false} RepeatLetsExtraThrough(name: string, value: string, extra: string, other: string)
    requires '/' !in name && Usable(value) && extra != name
    ensures Expanded(":" + name + "/" + (":" + name), map[name := value, extra := other]) == Ok(value + "/" + value)
  {
    var p := map[name := value, extra := other];
    var segment := ":" + name;
    assert segment[1..] == name;
    SplitPlain(segment);
    SplitFirst(segment, segment);
    var segments := [segment] + [segment];
    assert segments[1..] == [segment];
    RepeatedPair(segment, p);
    assert p.Keys == {name, extra};
    assert |p| == |p.Keys|;
  }

  lemma {:induction false} RepeatedPair(segment: string, parameters: Parameters)
    requires IsParameter(segment) && segment[1..] in parameters && Usable(parameters[segment[1..]])
    ensures FirstProblem([segment] + [segment], parameters).None?
    ensures |Names([segment] + [segment])| == 2
    ensures Join(Filled([segment] + [segment], parameters)) == parameters[segment[1..]] + "/" + parameters[segment[1..]]
  {
    var one := [segment];
    var two := [segment] + one;
    assert one[1..] == [] && two[1..] == one;
    assert !IsWildcard(segment);
    assert Problem(segment, parameters).None?;
    assert FirstProblem(one, parameters) == FirstProblem(one[1..], parameters);
    assert Filled(one, parameters) == [Put(segment, parameters)] + Filled(one[1..], parameters);
    assert Names(one) == [segment[1..]] + Names(one[1..]);
    var filled := Filled(two, parameters);
    assert filled[1..] == Filled(one, parameters);
    assert Join(filled[1..]) == Put(segment, parameters);
  }
}
