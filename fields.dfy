/** The pipe-delimited field string of a monitoring alert: splitting it on a
    separator the way Python's `str.split(sep)` does, joining fields back with
    `sep.join`, and the bounded split that gives an alert its fixed number of
    fields, the last of which keeps any further separators. */
module Fields {

  import opened Wrappers

  /** The separator between the fields of an alert. */
  const Pipe: char := '|'

  /** Position of the first `c` in `s`, or `|s|` when `s` has none. */
  function Find(s: string, c: char): (i: nat)
    ensures i <= |s|
    ensures i < |s| ==> s[i] == c
    ensures c !in s[..i]
  {
    if |s| == 0 || s[0] == c then 0 else 1 + Find(s[1..], c)
  }

  /** `s.split(sep)`: the maximal separator-free pieces of `s`, in order. An
      empty string gives one empty piece, and two adjacent separators an empty
      piece between them. */
  function Split(s: string, sep: char): (parts: seq<string>)
    ensures |parts| > 0
    ensures forall k :: 0 <= k < |parts| ==> sep !in parts[k]
    decreases |s|
  {
    var i := Find(s, sep);
    if i == |s| then [s]
    else [s[..i]] + Split(s[i + 1..], sep)
  }

  /** The number of characters in all the parts together. */
  function TotalLength(parts: seq<string>): nat
  {
    if |parts| == 0 then 0 else |parts[0]| + TotalLength(parts[1..])
  }

  /** `sep.join(parts)`: every part, and one separator between each two. */
  function Join(parts: seq<string>, sep: char): (r: string)
    ensures |parts| > 0 ==> |r| == TotalLength(parts) + |parts| - 1
  {
    if |parts| == 0 then ""
    else if |parts| == 1 then parts[0]
    else parts[0] + [sep] + Join(parts[1..], sep)
  }

  /** Joining the pieces of a split gives back the string. */
  lemma {:induction false} JoinSplit(s: string, sep: char)
    ensures Join(Split(s, sep), sep) == s
    decreases |s|
  {
    var i := Find(s, sep);
    if i < |s| {
      var rest := Split(s[i + 1..], sep);
      JoinSplit(s[i + 1..], sep);
      assert Split(s, sep) == [s[..i]] + rest;
      JoinCons(s[..i], rest, sep);
      CutAt(s, i);
    }
  }

  /** Joining a piece in front of other pieces puts a separator after it. */
  lemma JoinCons(p: string, rest: seq<string>, sep: char)
    requires |rest| > 0
    ensures Join([p] + rest, sep) == p + [sep] + Join(rest, sep)
  {
    assert ([p] + rest)[1..] == rest;
  }

  /** A string is what comes before position `i`, the character there, and
      what comes after. */
  lemma CutAt(s: string, i: nat)
    requires i < |s|
    ensures s == s[..i] + [s[i]] + s[i + 1..]
  {
  }

  /** A string without the separator is its own single piece. */
  lemma SplitWithout(s: string, sep: char)
    requires sep !in s
    ensures Split(s, sep) == [s]
  {
    assert Find(s, sep) == |s|;
  }

  /** A position holding `c` with no `c` before it is the one `Find` gives. */
  lemma FindAt(s: string, c: char, i: nat)
    requires i <= |s| && (i < |s| ==> s[i] == c)
    requires c !in s[..i]
    ensures Find(s, c) == i
  {
  }

  /** A piece without the separator, then a separator: the piece is split off
      whole and the rest is split on its own. */
  lemma SplitAfterPiece(p: string, t: string, sep: char)
    requires sep !in p
    ensures Split(p + [sep] + t, sep) == [p] + Split(t, sep)
  {
    var s := p + [sep] + t;
    assert s[..|p|] == p && s[|p|] == sep;
    FindAt(s, sep, |p|);
    assert s[|p| + 1..] == t;
  }

  /** How the tail of a sequence of at least two elements lines up with the
      sequence itself. */
  lemma TailShape<T>(s: seq<T>)
    requires |s| > 1
    ensures s[1..][..|s| - 2] == s[1..|s| - 1]
    ensures s[1..][|s| - 2] == s[|s| - 1]
    ensures [s[0]] + s[1..|s| - 1] == s[..|s| - 1]
  {
  }

  lemma ConsAppend<T>(a: T, b: seq<T>, c: seq<T>)
    ensures [a] + (b + c) == ([a] + b) + c
  {
  }

  lemma FrontLast<T>(s: seq<T>)
    requires |s| > 0
    ensures s[..|s| - 1] + [s[|s| - 1]] == s
  {
  }

  lemma AppendSlices<T>(a: seq<T>, b: seq<T>)
    ensures (a + b)[..|a|] == a && (a + b)[|a|..] == b
  {
  }

  /** Splitting a join of pieces whose all but last are separator-free gives
      back those pieces, followed by the pieces of the last. */
  lemma {:induction false} SplitJoinFront(fields: seq<string>, sep: char)
    requires |fields| > 0
    requires forall i :: 0 <= i < |fields| - 1 ==> sep !in fields[i]
    ensures Split(Join(fields, sep), sep) == fields[..|fields| - 1] + Split(fields[|fields| - 1], sep)
    decreases |fields|
  {
    var n := |fields|;
    if n > 1 {
      var p, rest := fields[0], fields[1..];
      assert forall i :: 0 <= i < |rest| - 1 ==> sep !in rest[i] by {
        forall i | 0 <= i < |rest| - 1 ensures sep !in rest[i] {
          assert rest[i] == fields[i + 1];
        }
      }
      SplitJoinFront(rest, sep);
      TailShape(fields);
      SplitJoinStep(fields, sep);
    }
  }

  /** The inductive step of `SplitJoinFront`: a separator-free first part
      splits off in front of what the rest splits into. */
  lemma SplitJoinStep(fields: seq<string>, sep: char)
    requires |fields| > 1 && sep !in fields[0]
    requires Split(Join(fields[1..], sep), sep) == fields[1..|fields| - 1] + Split(fields[|fields| - 1], sep)
    ensures Split(Join(fields, sep), sep) == fields[..|fields| - 1] + Split(fields[|fields| - 1], sep)
  {
    var n := |fields|;
    SplitAfterPiece(fields[0], Join(fields[1..], sep), sep);
    TailShape(fields);
    ConsAppend(fields[0], fields[1..n - 1], Split(fields[n - 1], sep));
  }

  /** Splitting a join of separator-free pieces gives back the pieces. */
  lemma SplitJoin(parts: seq<string>, sep: char)
    requires |parts| > 0
    requires forall i :: 0 <= i < |parts| ==> sep !in parts[i]
    ensures Split(Join(parts, sep), sep) == parts
  {
    var n := |parts|;
    SplitJoinFront(parts, sep);
    SplitWithout(parts[n - 1], sep);
    FrontLast(parts);
  }

  /** Joining two non-empty runs of pieces puts one separator between their joins. */
  lemma {:induction false} JoinAppend(a: seq<string>, b: seq<string>, sep: char)
    requires |a| > 0 && |b| > 0
    ensures Join(a + b, sep) == Join(a, sep) + [sep] + Join(b, sep)
    decreases |a|
  {
    if |a| == 1 {
      assert (a + b)[1..] == b;
    } else {
      JoinAppend(a[1..], b, sep);
      assert (a + b)[1..] == a[1..] + b;
    }
  }

  /** `s.split(sep, n - 1)` where the string has at least `n - 1` separators:
      the first `n - 1` separators delimit fields and the remainder, separators
      included, is the last field. None when `s` has fewer than `n` fields. */
  function SplitFields(s: string, sep: char, n: nat): (r: Option<seq<string>>)
    requires n > 0
    ensures r.Some? <==> |Split(s, sep)| >= n
    ensures r.Some? ==> |r.value| == n
    ensures r.Some? ==> forall i :: 0 <= i < n - 1 ==> r.value[i] == Split(s, sep)[i]
  {
    var parts := Split(s, sep);
    if |parts| < n then None
    else Some(parts[..n - 1] + [Join(parts[n - 1..], sep)])
  }

  /** The fields of a bounded split join back to the original string. */
  lemma SplitFieldsJoin(s: string, sep: char, n: nat)
    requires n > 0
    requires SplitFields(s, sep, n).Some?
    ensures Join(SplitFields(s, sep, n).value, sep) == s
    ensures forall i :: 0 <= i < n - 1 ==> sep !in SplitFields(s, sep, n).value[i]
  {
    var parts := Split(s, sep);
    var last := Join(parts[n - 1..], sep);
    JoinSplit(s, sep);
    if n == 1 {
      assert parts[n - 1..] == parts;
    } else {
      JoinAppend(parts[..n - 1], [last], sep);
      JoinAppend(parts[..n - 1], parts[n - 1..], sep);
      assert parts[..n - 1] + parts[n - 1..] == parts;
    }
  }

  /** Joining `n` fields whose first `n - 1` hold no separator and splitting the
      result into `n` fields gives back those fields, whatever the last holds. */
  lemma SplitFieldsOfJoin(fields: seq<string>, sep: char)
    requires |fields| > 0
    requires forall i :: 0 <= i < |fields| - 1 ==> sep !in fields[i]
    ensures SplitFields(Join(fields, sep), sep, |fields|) == Some(fields)
  {
    var n := |fields|;
    SplitJoinFront(fields, sep);
    JoinSplit(fields[n - 1], sep);
    AppendSlices(fields[..n - 1], Split(fields[n - 1], sep));
    FrontLast(fields);
  }
}
