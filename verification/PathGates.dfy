/** Path patterns and changed-path records of path-aware gates (`path_gates.py`). */
module PathGates {

  // ------------------------------------------------------------------ splitting

  /** `str.split` on one character. */
  function Split(s: string, sep: char): (fields: seq<string>)
    ensures |fields| > 0
  {
    if s == "" then [""]
    else if s[0] == sep then [""] + Split(s[1..], sep)
    else var rest := Split(s[1..], sep); [[s[0]] + rest[0]] + rest[1..]
  }

  /** Each field followed by the separator. */
  function Terminated(fields: seq<string>, sep: char): string {
    if fields == [] then "" else fields[0] + [sep] + Terminated(fields[1..], sep)
  }

  predicate NoneContains(fields: seq<string>, sep: char) {
    forall i :: 0 <= i < |fields| ==> sep !in fields[i]
  }

  lemma {:induction false} SplitOfField(field: string, rest: string, sep: char)
    requires sep !in field
    ensures Split(field + [sep] + rest, sep) == [field] + Split(rest, sep)
  {
    var s := field + [sep] + rest;
    if field == "" {
      assert s[1..] == rest;
    } else {
      SplitOfField(field[1..], rest, sep);
      assert s[1..] == field[1..] + [sep] + rest;
      assert [s[0]] + field[1..] == field;
    }
  }

  /** Splitting undoes terminating, and leaves the empty field after the last separator. */
  lemma {:induction false} SplitOfTerminated(fields: seq<string>, sep: char)
    requires NoneContains(fields, sep)
    ensures Split(Terminated(fields, sep), sep) == fields + [""]
  {
    if fields != [] {
      SplitOfTerminated(fields[1..], sep);
      SplitOfField(fields[0], Terminated(fields[1..], sep), sep);
      assert fields == [fields[0]] + fields[1..];
    }
  }

  lemma TerminatedLonger(c: char, fields: seq<string>, sep: char)
    requires fields != []
    ensures Terminated([[c] + fields[0]] + fields[1..], sep) == [c] + Terminated(fields, sep)
  {
    var longer := [[c] + fields[0]] + fields[1..];
    assert longer[1..] == fields[1..];
    assert [c] + fields[0] + [sep] == [c] + (fields[0] + [sep]);
  }

  lemma TerminatedOneMore(fields: seq<string>, sep: char)
    ensures Terminated([""] + fields, sep) == [sep] + Terminated(fields, sep)
  {
    assert ([""] + fields)[1..] == fields;
  }

  /** The fields of a split hold no separator and, put together, give the text back. */
  lemma {:induction false} SplitIsExact(s: string, sep: char)
    ensures NoneContains(Split(s, sep), sep)
    ensures Terminated(Split(s, sep), sep) == s + [sep]
  {
    if s == "" {
      assert [""][1..] == [];
    } else {
      var rest := Split(s[1..], sep);
      SplitIsExact(s[1..], sep);
      assert s + [sep] == [s[0]] + (s[1..] + [sep]);
      if s[0] == sep {
        TerminatedOneMore(rest, sep);
      } else {
        TerminatedLonger(s[0], rest, sep);
      }
    }
  }

  // ------------------------------------------------------------------ path patterns

  const ANY_SEGMENTS := "**"

  /** `match` in `path_matches`, without its cache. */
  function Match(parts: seq<string>, segments: seq<string>, fits: (string, string) -> bool, part: nat, at: nat): bool
    requires part <= |parts| && at <= |segments|
    decreases |parts| - part + |segments| - at
  {
    if part == |parts| then at == |segments|
    else if parts[part] == ANY_SEGMENTS then
      || Match(parts, segments, fits, part + 1, at)
      || (at < |segments| && Match(parts, segments, fits, part, at + 1))
    else
      at < |segments| && fits(segments[at], parts[part]) && Match(parts, segments, fits, part + 1, at + 1)
  }

  /** `path_matches`; `fits` says whether one path segment matches one other pattern part. */
  function PathMatches(pattern: string, path: string, fits: (string, string) -> bool): bool {
    Match(Split(pattern, '/'), Split(path, '/'), fits, 0, 0)
  }

  function AnyPathMatches(patterns: seq<string>, paths: seq<string>, fits: (string, string) -> bool): bool {
    exists path <- paths, pattern <- patterns :: PathMatches(pattern, path, fits)
  }

  /** The segments from `at` on, cut at these points, are what the parts from `part` on ask
      for: any run of segments for `**`, and one segment that fits for any other part. */
  ghost predicate Cuts(parts: seq<string>, segments: seq<string>, fits: (string, string) -> bool, part: nat, at: nat,
                       cuts: seq<nat>)
    requires part <= |parts| && at <= |segments|
  {
    && |cuts| == |parts| - part + 1 && cuts[0] == at && cuts[|cuts| - 1] == |segments|
    && forall k :: 0 <= k < |parts| - part ==> CutAt(parts, segments, fits, part + k, cuts[k], cuts[k + 1])
  }

  ghost predicate CutAt(parts: seq<string>, segments: seq<string>, fits: (string, string) -> bool, part: nat,
                        from: nat, to: nat)
    requires part < |parts|
  {
    && from <= to <= |segments|
    && (parts[part] != ANY_SEGMENTS ==> to == from + 1 && fits(segments[from], parts[part]))
  }

  lemma {:induction false} MatchHasCuts(parts: seq<string>, segments: seq<string>, fits: (string, string) -> bool,
                                        part: nat, at: nat)
    returns (cuts: seq<nat>)
    requires part <= |parts| && at <= |segments| && Match(parts, segments, fits, part, at)
    ensures Cuts(parts, segments, fits, part, at, cuts)
    decreases |parts| - part + |segments| - at
  {
    if part == |parts| {
      cuts := [at];
    } else if parts[part] == ANY_SEGMENTS && !Match(parts, segments, fits, part + 1, at) {
      var rest := MatchHasCuts(parts, segments, fits, part, at + 1);
      cuts := rest[0 := at];
      forall k | 0 <= k < |parts| - part ensures CutAt(parts, segments, fits, part + k, cuts[k], cuts[k + 1]) {
        assert CutAt(parts, segments, fits, part + k, rest[k], rest[k + 1]);
      }
    } else {
      var next := if parts[part] == ANY_SEGMENTS then at else at + 1;
      var rest := MatchHasCuts(parts, segments, fits, part + 1, next);
      cuts := [at] + rest;
      forall k | 0 <= k < |parts| - part ensures CutAt(parts, segments, fits, part + k, cuts[k], cuts[k + 1]) {
        if k > 0 { assert CutAt(parts, segments, fits, part + 1 + (k - 1), rest[k - 1], rest[k]); }
      }
    }
  }

  lemma {:induction false} CutsMatch(parts: seq<string>, segments: seq<string>, fits: (string, string) -> bool,
                                     part: nat, at: nat, cuts: seq<nat>)
    requires part <= |parts| && at <= |segments| && Cuts(parts, segments, fits, part, at, cuts)
    ensures Match(parts, segments, fits, part, at)
    decreases |parts| - part + |segments| - at
  {
    if part < |parts| {
      assert CutAt(parts, segments, fits, part + 0, cuts[0], cuts[1]);
      if parts[part] == ANY_SEGMENTS && cuts[1] > at {
        var rest := cuts[0 := at + 1];
        forall k | 0 <= k < |parts| - part ensures CutAt(parts, segments, fits, part + k, rest[k], rest[k + 1]) {
          assert CutAt(parts, segments, fits, part + k, cuts[k], cuts[k + 1]);
        }
        CutsMatch(parts, segments, fits, part, at + 1, rest);
      } else {
        var rest := cuts[1..];
        forall k | 0 <= k < |parts| - (part + 1)
          ensures CutAt(parts, segments, fits, part + 1 + k, rest[k], rest[k + 1])
        {
          assert CutAt(parts, segments, fits, part + (k + 1), cuts[k + 1], cuts[k + 2]);
        }
        CutsMatch(parts, segments, fits, part + 1, cuts[1], rest);
      }
    }
  }

  /** The path's segments split so that each `**` takes any number of whole segments and each
      other part takes one that fits. */
  ghost predicate Splits(pattern: string, path: string, fits: (string, string) -> bool) {
    exists cuts: seq<nat> :: Cuts(Split(pattern, '/'), Split(path, '/'), fits, 0, 0, cuts)
  }

  lemma PathMatchesExactlyWhenItSplits(pattern: string, path: string, fits: (string, string) -> bool)
    ensures PathMatches(pattern, path, fits) <==> Splits(pattern, path, fits)
  {
    var parts, segments := Split(pattern, '/'), Split(path, '/');
    if PathMatches(pattern, path, fits) {
      var cuts := MatchHasCuts(parts, segments, fits, 0, 0);
      assert Cuts(parts, segments, fits, 0, 0, cuts);
    } else if Splits(pattern, path, fits) {
      var cuts: seq<nat> :| Cuts(parts, segments, fits, 0, 0, cuts);
      CutsMatch(parts, segments, fits, 0, 0, cuts);
      assert false;
    }
  }

  // ------------------------------------------------------------------ changed paths

  const NUL := '\0'

  /** One record of `git diff --name-status -z`: a status, and the path or, of a rename or
      copy, both paths. */
  datatype Record = Record(status: string, paths: seq<string>)

  predicate ValidStatus(status: string) {
    && status != "" && 'A' <= status[0] <= 'Z'
    && forall i :: 1 <= i < |status| ==> '0' <= status[i] <= '9'
  }

  function PathCount(status: string): nat {
    if status != "" && (status[0] == 'R' || status[0] == 'C') then 2 else 1
  }

  predicate ValidPath(path: string) { path != "" && NUL !in path }

  predicate ValidRecord(r: Record) {
    ValidStatus(r.status) && |r.paths| == PathCount(r.status) && forall path <- r.paths :: ValidPath(path)
  }

  predicate ValidRecords(records: seq<Record>) { forall r <- records :: ValidRecord(r) }

  function Fields(records: seq<Record>): seq<string> {
    if records == [] then [] else [records[0].status] + records[0].paths + Fields(records[1..])
  }

  function Paths(records: seq<Record>): seq<string> {
    if records == [] then [] else Paths(records[..|records| - 1]) + records[|records| - 1].paths
  }

  /** What `git` prints. */
  function Printed(records: seq<Record>): string { Terminated(Fields(records), NUL) }

  /** `dict.fromkeys`: each path once, where it first occurs. */
  function FirstOccurrences(paths: seq<string>): seq<string> {
    if paths == [] then []
    else
      var before, last := FirstOccurrences(paths[..|paths| - 1]), paths[|paths| - 1];
      if last in before then before else before + [last]
  }

  lemma {:induction false} FirstOccurrencesAreAllAndDistinct(paths: seq<string>)
    ensures forall path :: path in FirstOccurrences(paths) <==> path in paths
    ensures forall i, j :: 0 <= i < j < |FirstOccurrences(paths)| ==>
      FirstOccurrences(paths)[i] != FirstOccurrences(paths)[j]
  {
    if paths != [] {
      FirstOccurrencesAreAllAndDistinct(paths[..|paths| - 1]);
      assert paths == paths[..|paths| - 1] + [paths[|paths| - 1]];
    }
  }

  /** A path comes before another exactly when it occurs before it. */
  lemma {:induction false} FirstOccurrencesKeepOrder(paths: seq<string>, n: nat, k: nat)
    requires n <= |paths| && k < |FirstOccurrences(paths)|
    ensures FirstOccurrences(paths)[k] in paths[..n] <==> k < |FirstOccurrences(paths[..n])|
    ensures k < |FirstOccurrences(paths[..n])| ==> FirstOccurrences(paths[..n])[k] == FirstOccurrences(paths)[k]
    decreases |paths|
  {
    FirstOccurrencesAreAllAndDistinct(paths[..n]);
    FirstOccurrencesAreAllAndDistinct(paths);
    if n == |paths| {
      assert paths[..n] == paths;
    } else {
      var init := paths[..|paths| - 1];
      assert init[..n] == paths[..n];
      if k < |FirstOccurrences(init)| {
        FirstOccurrencesKeepOrder(init, n, k);
      } else {
        FirstOccurrencesAreAllAndDistinct(init);
        PrefixIsShorter(init, n);
        assert FirstOccurrences(paths)[k] == paths[|paths| - 1] && paths[|paths| - 1] !in init;
        assert forall path :: path in paths[..n] ==> path in init;
      }
    }
  }

  lemma {:induction false} PrefixIsShorter(paths: seq<string>, n: nat)
    requires n <= |paths|
    ensures |FirstOccurrences(paths[..n])| <= |FirstOccurrences(paths)|
    decreases |paths|
  {
    if n == |paths| {
      assert paths[..n] == paths;
    } else {
      PrefixIsShorter(paths[..|paths| - 1], n);
      assert paths[..|paths| - 1][..n] == paths[..n];
    }
  }

  // ------------------------------------------------------------------ parsing

  datatype MaybeRecords = NoRecords | Records(records: seq<Record>)

  predicate StartsWithRecord(fields: seq<string>)
    requires fields != []
  {
    && ValidStatus(fields[0]) && 1 + PathCount(fields[0]) <= |fields|
    && forall i :: 1 <= i < 1 + PathCount(fields[0]) ==> ValidPath(fields[i])
  }

  function FirstRecord(fields: seq<string>): Record
    requires fields != [] && StartsWithRecord(fields)
  {
    Record(fields[0], fields[1..1 + PathCount(fields[0])])
  }

  function Prepend(first: seq<Record>, rest: MaybeRecords): MaybeRecords {
    if rest.Records? then Records(first + rest.records) else NoRecords
  }

  /** The records that these fields spell, if they do. */
  function Parse(fields: seq<string>): MaybeRecords {
    if fields == [] then Records([])
    else if !StartsWithRecord(fields) then NoRecords
    else Prepend([FirstRecord(fields)], Parse(fields[1 + PathCount(fields[0])..]))
  }

  lemma {:induction false} ParseOfFields(records: seq<Record>)
    requires ValidRecords(records)
    ensures Parse(Fields(records)) == Records(records)
  {
    if records != [] {
      var fields, first := Fields(records), records[0];
      assert ValidRecord(first);
      ParseOfFields(records[1..]);
      assert fields[0] == first.status;
      assert fields[1..1 + PathCount(first.status)] == first.paths;
      assert fields[1 + PathCount(first.status)..] == Fields(records[1..]);
      assert forall i :: 1 <= i < 1 + PathCount(first.status) ==> fields[i] == first.paths[i - 1];
      assert records == [first] + records[1..];
    }
  }

  lemma {:induction false} FieldsOfParse(fields: seq<string>)
    requires Parse(fields).Records?
    ensures ValidRecords(Parse(fields).records) && Fields(Parse(fields).records) == fields
  {
    if fields != [] {
      var count := PathCount(fields[0]);
      FieldsOfParse(fields[1 + count..]);
      var first, rest := FirstRecord(fields), Parse(fields[1 + count..]).records;
      assert ([first] + rest)[1..] == rest;
      assert forall i :: 0 <= i < count ==> first.paths[i] == fields[i + 1];
      assert fields == [fields[0]] + fields[1..1 + count] + fields[1 + count..];
    }
  }

  lemma {:induction false} FieldsHoldNoNul(records: seq<Record>)
    requires ValidRecords(records)
    ensures NoneContains(Fields(records), NUL)
  {
    if records != [] {
      FieldsHoldNoNul(records[1..]);
      var first := records[0];
      assert ValidRecord(first);
      StatusHoldsNoNul(first.status);
      assert forall i :: 0 <= i < |first.paths| ==> ValidPath(first.paths[i]);
    }
  }

  lemma StatusHoldsNoNul(status: string)
    requires ValidStatus(status)
    ensures NUL !in status
  {
    forall i | 0 <= i < |status| ensures status[i] != NUL {
      if i > 0 { assert '0' <= status[i]; }
    }
  }

  lemma PrintedSplits(records: seq<Record>)
    requires ValidRecords(records)
    ensures Split(Printed(records), NUL) == Fields(records) + [""]
  {
    FieldsHoldNoNul(records);
    SplitOfTerminated(Fields(records), NUL);
  }

  lemma TerminatedIsExact(output: string, fields: seq<string>)
    requires Split(output, NUL) == fields + [""]
    ensures Terminated(fields, NUL) == output
  {
    SplitIsExact(output, NUL);
    TerminatedAppend(fields, [""]);
    assert [""][1..] == [];
    assert Terminated([""], NUL) == [NUL];
    assert output + [NUL] == Terminated(fields, NUL) + [NUL];
    assert (output + [NUL])[..|output|] == output;
  }

  lemma {:induction false} TerminatedAppend(a: seq<string>, b: seq<string>)
    ensures Terminated(a + b, NUL) == Terminated(a, NUL) + Terminated(b, NUL)
  {
    if a == [] {
      assert a + b == b;
    } else {
      assert (a + b)[0] == a[0] && (a + b)[1..] == a[1..] + b;
      TerminatedAppend(a[1..], b);
    }
  }

  /** Output that does not parse is printed for no records. */
  lemma MalformedIsNeverPrinted(output: string)
    requires var fields := Split(output, NUL);
      fields[|fields| - 1] != "" || Parse(fields[..|fields| - 1]).NoRecords?
    ensures forall records: seq<Record> :: ValidRecords(records) ==> Printed(records) != output
  {
    var fields := Split(output, NUL);
    forall records: seq<Record> | ValidRecords(records) ensures Printed(records) != output {
      PrintedSplits(records);
      ParseOfFields(records);
      var printed := Split(Printed(records), NUL);
      assert printed[..|printed| - 1] == Fields(records) && printed[|printed| - 1] == "";
    }
  }

  datatype Parsed = Ok(paths: seq<string>) | Malformed

  /** `parse_name_status_z` accepts exactly what `git` prints for some records, and returns
      their paths, both ends of a rename included, each once and in order. */
  method ParseNameStatusZ(output: string) returns (r: Parsed, ghost records: seq<Record>)
    ensures r.Ok? ==> ValidRecords(records) && Printed(records) == output && r.paths == FirstOccurrences(Paths(records))
    ensures r.Malformed? ==> forall rs: seq<Record> :: ValidRecords(rs) ==> Printed(rs) != output
  {
    records := [];
    if output == "" { return Ok([]), records; }
    var fields := Split(output, NUL);
    if fields[|fields| - 1] != "" {
      MalformedIsNeverPrinted(output);
      return Malformed, records;
    }
    fields := fields[..|fields| - 1];
    assert Split(output, NUL) == fields + [""];
    var parsed, paths := CollectPaths(fields);
    if !parsed {
      assert Split(output, NUL)[..|fields|] == fields;
      MalformedIsNeverPrinted(output);
      return Malformed, records;
    }
    records := Parse(fields).records;
    FieldsOfParse(fields);
    TerminatedIsExact(output, fields);
    var kept := Deduplicated(paths);
    r := Ok(kept);
  }

  method CollectPaths(fields: seq<string>) returns (ok: bool, paths: seq<string>)
    ensures ok <==> Parse(fields).Records?
    ensures ok ==> paths == Paths(Parse(fields).records)
  {
    ok, paths := true, [];
    var index := 0;
    ghost var read: seq<Record> := [];
    assert fields[0..] == fields;
    while index < |fields|
      invariant 0 <= index <= |fields| && ok && paths == Paths(read)
      invariant Parse(fields) == Prepend(read, Parse(fields[index..]))
    {
      var status := fields[index];
      ghost var rest := fields[index..];
      index := index + 1;
      if !ValidStatus(status) { return false, paths; }
      var count := PathCount(status);
      if index + count > |fields| { return false, paths; }
      for k := 0 to count
        invariant forall i :: 1 <= i < 1 + k ==> ValidPath(rest[i])
        invariant paths == Paths(read) + rest[1..1 + k]
      {
        assert rest[1 + k] == fields[index + k];
        if !ValidPath(fields[index + k]) { return false, paths; }
        paths := paths + [fields[index + k]];
        assert rest[1..1 + k] + [rest[1 + k]] == rest[1..1 + (k + 1)];
      }
      ghost var record := FirstRecord(rest);
      assert rest[1 + count..] == fields[index + count..];
      assert (read + [record])[..|read|] == read;
      PrependTwice(read, [record], Parse(fields[index + count..]));
      read := read + [record];
      index := index + count;
    }
    assert fields[index..] == [];
    assert read + [] == read;
  }

  lemma PrependTwice(a: seq<Record>, b: seq<Record>, rest: MaybeRecords)
    ensures Prepend(a, Prepend(b, rest)) == Prepend(a + b, rest)
  {
    if rest.Records? { assert a + (b + rest.records) == a + b + rest.records; }
  }

  method Deduplicated(paths: seq<string>) returns (kept: seq<string>)
    ensures kept == FirstOccurrences(paths)
  {
    kept := [];
    for i := 0 to |paths|
      invariant kept == FirstOccurrences(paths[..i])
    {
      assert paths[..i + 1][..i] == paths[..i];
      if paths[i] !in kept { kept := kept + [paths[i]]; }
    }
    assert paths[..|paths|] == paths;
  }

  /** Printing and parsing are inverse. */
  lemma PrintedParses(records: seq<Record>)
    requires ValidRecords(records)
    ensures Split(Printed(records), NUL) == Fields(records) + [""] && Parse(Fields(records)) == Records(records)
  {
    PrintedSplits(records);
    ParseOfFields(records);
  }
}
