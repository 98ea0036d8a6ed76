/** The fragment of the JavaScript string library that the address code uses,
    and the optional value that stands for a nullable column. */
module Text {
  datatype Option<+T> = None | Some(value: T) {
    function GetOr(default: T): T {
      match this
      case Some(v) => v
      case None => default
    }
  }

  /** White space and line terminators removed by String.prototype.trim. */
  predicate IsSpace(c: char) {
    || '\t' <= c <= '\r'
    || c == ' '
    || c == '\U{00A0}' || c == '\U{1680}' || '\U{2000}' <= c <= '\U{200A}'
    || c == '\U{2028}' || c == '\U{2029}' || c == '\U{202F}' || c == '\U{205F}'
    || c == '\U{3000}' || c == '\U{FEFF}'
  }

  function LowerChar(c: char): char {
    if 'A' <= c <= 'Z' then c - 'A' + 'a' else c
  }

  function Lower(s: string): (r: string)
    ensures |r| == |s|
  {
    if s == [] then [] else Lower(s[..|s| - 1]) + [LowerChar(s[|s| - 1])]
  }

  lemma {:induction false} LowerAt(s: string)
    ensures forall i | 0 <= i < |s| :: Lower(s)[i] == LowerChar(s[i])
  {
    if s != [] {
      LowerAt(s[..|s| - 1]);
    }
  }

  lemma {:induction false} LowerFixes(s: string)
    requires forall i | 0 <= i < |s| :: LowerChar(s[i]) == s[i]
    ensures Lower(s) == s
  {
    if s != [] {
      LowerFixes(s[..|s| - 1]);
    }
  }

  function Trim(s: string): (r: string)
    ensures r == [] || (!IsSpace(r[0]) && !IsSpace(r[|r| - 1]))
  {
    if s != [] && IsSpace(s[0]) then Trim(s[1..])
    else if s != [] && IsSpace(s[|s| - 1]) then Trim(s[..|s| - 1])
    else s
  }

  /** `address.trim().toLowerCase()`. */
  function Normalize(s: string): string {
    Lower(Trim(s))
  }

  const SPACES := "\t\n\U{000B}\U{000C}\r \U{00A0}\U{1680}\U{2000}\U{2001}\U{2002}\U{2003}\U{2004}\U{2005}\U{2006}\U{2007}\U{2008}\U{2009}\U{200A}\U{2028}\U{2029}\U{202F}\U{205F}\U{3000}\U{FEFF}"

  lemma SliceOfTail(s: string, a: nat, b: nat)
    requires a <= b < |s|
    ensures s[1..][a..b] == s[a + 1..b + 1]
    ensures a < b ==> s[1..][a] == s[a + 1] && s[1..][b - 1] == s[b]
  {
  }

  lemma SliceOfInit(s: string, a: nat, b: nat)
    requires a <= b < |s|
    ensures s[..|s| - 1][a..b] == s[a..b]
    ensures a < b ==> s[..|s| - 1][a] == s[a] && s[..|s| - 1][b - 1] == s[b - 1]
  {
  }

  lemma {:induction false} TrimCuts(s: string) returns (i: nat, j: nat)
    ensures i <= j <= |s| && Trim(s) == s[i..j]
    ensures forall k | 0 <= k < |s| && !(i <= k < j) :: IsSpace(s[k])
    ensures i < j ==> !IsSpace(s[i]) && !IsSpace(s[j - 1])
  {
    if s != [] && IsSpace(s[0]) {
      var a, b := TrimCuts(s[1..]);
      i, j := a + 1, b + 1;
      SliceOfTail(s, a, b);
      forall k | 0 <= k < |s| && !(i <= k < j) ensures IsSpace(s[k]) {
        assert k > 0 ==> s[k] == s[1..][k - 1];
      }
    } else if s != [] && IsSpace(s[|s| - 1]) {
      i, j := TrimCuts(s[..|s| - 1]);
      SliceOfInit(s, i, j);
      forall k | 0 <= k < |s| && !(i <= k < j) ensures IsSpace(s[k]) {
        assert k < |s| - 1 ==> s[k] == s[..|s| - 1][k];
      }
    } else {
      i, j := 0, |s|;
    }
  }

  /** The white space and the line terminators of ECMAScript. */
  lemma SpacesAre()
    ensures forall c :: IsSpace(c) <==> c in SPACES
  {
  }

  /** The text between the outer white space, with A to Z replaced by a to z. */
  lemma NormalizeIs(s: string) returns (i: nat, j: nat)
    ensures i <= j <= |s| && |Normalize(s)| == j - i
    ensures forall k | 0 <= k < |s| && !(i <= k < j) :: s[k] in SPACES
    ensures i < j ==> s[i] !in SPACES && s[j - 1] !in SPACES
    ensures forall k | i <= k < j ::
              (Normalize(s)[k - i] as int) == if 'A' <= s[k] <= 'Z' then s[k] as int + 32 else s[k] as int
  {
    SpacesAre();
    i, j := TrimCuts(s);
    LowerAt(Trim(s));
  }

  predicate IsNormal(s: string) {
    && (forall i | 0 <= i < |s| :: LowerChar(s[i]) == s[i])
    && (s != [] ==> !IsSpace(s[0]) && !IsSpace(s[|s| - 1]))
  }

  lemma NormalizeYieldsNormal(s: string)
    ensures IsNormal(Normalize(s))
  {
    var t := Trim(s);
    var r := Lower(t);
    LowerAt(t);
    if r != [] {
      assert r[0] == LowerChar(t[0]) && r[|r| - 1] == LowerChar(t[|t| - 1]);
    }
  }

  lemma NormalIsFixed(s: string)
    requires IsNormal(s)
    ensures Normalize(s) == s
  {
    assert Trim(s) == s;
    LowerFixes(s);
  }

  /** `p` occurs in `s` at index `i`. */
  predicate OccursAt(s: string, p: string, i: int) {
    0 <= i <= |s| - |p| && forall k | 0 <= k < |p| :: p[k] == s[i + k]
  }

  /** `s.lastIndexOf(p, from)`: the last occurrence that starts at or before `from`. */
  function LastIndexOf(s: string, p: string, from: int): (r: int)
    requires from < |s| + 1
    ensures -1 <= r
    ensures r >= 0 ==> r <= from && OccursAt(s, p, r)
    ensures forall j | r < j <= from :: !OccursAt(s, p, j)
    decreases from
  {
    if from < 0 then -1
    else if OccursAt(s, p, from) then from
    else LastIndexOf(s, p, from - 1)
  }

  /** The position of the last occurrence is determined by the two facts that define it. */
  lemma LastIndexIs(s: string, p: string, from: int, at: int)
    requires 0 <= at <= from < |s| + 1
    requires OccursAt(s, p, at)
    requires forall j | at < j <= from :: !OccursAt(s, p, j)
    ensures LastIndexOf(s, p, from) == at
  {
    assert LastIndexOf(s, p, from) < at ==> !OccursAt(s, p, at);
  }

  function Split(s: string, separator: char): (parts: seq<string>)
    ensures |parts| > 0
  {
    if s == [] then [[]]
    else
      var rest := Split(s[1..], separator);
      if s[0] == separator then [[]] + rest else [[s[0]] + rest[0]] + rest[1..]
  }

  function Join(parts: seq<string>, separator: char): string
    requires |parts| > 0
  {
    if |parts| == 1 then parts[0] else parts[0] + [separator] + Join(parts[1..], separator)
  }

  /** The parts have no separator and make up the text again. */
  lemma {:induction false} JoinUndoesSplit(s: string, separator: char)
    ensures Join(Split(s, separator), separator) == s
    ensures forall i | 0 <= i < |Split(s, separator)| :: separator !in Split(s, separator)[i]
  {
    if s != [] {
      JoinUndoesSplit(s[1..], separator);
      var rest := Split(s[1..], separator);
      assert s == [s[0]] + s[1..];
      if s[0] == separator {
        assert ([[]] + rest)[1..] == rest;
      } else {
        assert ([[s[0]] + rest[0]] + rest[1..])[1..] == rest[1..];
        assert |rest| == 1 ==> rest[1..] == [];
      }
    }
  }

  lemma {:induction false} SplitUndoesJoin(parts: seq<string>, separator: char)
    requires |parts| > 0 && forall i | 0 <= i < |parts| :: separator !in parts[i]
    ensures Split(Join(parts, separator), separator) == parts
    decreases |parts|, |parts[0]|
  {
    var s := Join(parts, separator);
    if parts[0] == [] {
      if |parts| > 1 {
        SplitUndoesJoin(parts[1..], separator);
        assert s[1..] == Join(parts[1..], separator);
        assert parts == [[]] + parts[1..];
      }
    } else {
      var c, shorter := parts[0][0], [parts[0][1..]] + parts[1..];
      SplitUndoesJoin(shorter, separator);
      assert parts[0] == [c] + parts[0][1..];
      assert shorter[1..] == parts[1..];
      assert s[1..] == Join(shorter, separator);
      assert parts == [parts[0]] + parts[1..];
    }
  }

  // --- Insertion-ordered Sets and Maps, and query results, as sequences -----------

  function AddNew<T(==)>(xs: seq<T>, x: Option<T>): seq<T> {
    if x.None? || x.value in xs then xs else xs + [x.value]
  }

  predicate NoDuplicates<T(==)>(xs: seq<T>) {
    forall i, j | 0 <= i < j < |xs| :: xs[i] != xs[j]
  }

  /** `k` is the first position at which `results` has the value `x`. */
  predicate IsFirst<T(==)>(results: seq<Option<T>>, x: T, k: nat) {
    k < |results| && results[k] == Some(x) && forall j | 0 <= j < k :: results[j] != Some(x)
  }

  /** `found` has each value of `results` once, in the order of their first occurrences, and nothing else. */
  ghost predicate ListsOnce<T(!new)>(results: seq<Option<T>>, found: seq<T>) {
    && NoDuplicates(found)
    && (forall x :: x in found <==> Some(x) in results)
    && (forall a: nat, b: nat, i: nat, j: nat | a < b < |found| && IsFirst(results, found[a], i) && IsFirst(results, found[b], j) :: i < j)
  }

  lemma {:induction false} FirstExists<T(!new)>(results: seq<Option<T>>, x: T) returns (k: nat)
    requires Some(x) in results
    ensures IsFirst(results, x, k)
  {
    if results[0] == Some(x) {
      k := 0;
    } else {
      var rest := FirstExists(results[1..], x);
      k := rest + 1;
      forall j | 0 <= j < k ensures results[j] != Some(x) {
        assert j > 0 ==> results[1..][j - 1] == results[j];
      }
    }
  }

  /** Adding the next value unless it is there already keeps the list. */
  lemma AddNewLists<T(!new)>(results: seq<Option<T>>, found: seq<T>, y: Option<T>)
    requires ListsOnce(results, found)
    ensures ListsOnce(results + [y], AddNew(found, y))
  {
    var more, r := results + [y], AddNew(found, y);
    forall x ensures x in r <==> Some(x) in more {
      assert y in more;
    }
    forall a: nat, b: nat, i: nat, j: nat | a < b < |r| && IsFirst(more, r[a], i) && IsFirst(more, r[b], j) ensures i < j {
      assert a < |found|;
      FirstKept(results, y, r[a], i);
      if r[b] in found {
        FirstKept(results, y, r[b], j);
      } else {
        assert more[j] == y && j == |results|;
      }
    }
  }

  lemma FirstKept<T(!new)>(results: seq<Option<T>>, y: Option<T>, x: T, k: nat)
    requires Some(x) in results && IsFirst(results + [y], x, k)
    ensures IsFirst(results, x, k)
  {
    var first := FirstExists(results, x);
    assert (results + [y])[first] == Some(x);
    assert forall j | 0 <= j < |results| :: (results + [y])[j] == results[j];
  }

  /** So there is only one such list. */
  lemma {:induction false} ListsOnceIsUnique<T(!new)>(results: seq<Option<T>>, found: seq<T>, other: seq<T>, k: nat)
    requires ListsOnce(results, found) && ListsOnce(results, other) && k <= |found|
    ensures k <= |other| && found[..k] == other[..k] && (k == |found| ==> found == other)
  {
    if k > 0 {
      ListsOnceIsUnique(results, found, other, k - 1);
      NextIsSame(results, found, other, k - 1);
    }
    if k == |found| && k < |other| {
      assert other[k] in found;
      assert forall p | 0 <= p < k :: found[p] == found[..k][p] == other[..k][p] == other[p];
    }
  }

  lemma NextIsSame<T(!new)>(results: seq<Option<T>>, found: seq<T>, other: seq<T>, k: nat)
    requires ListsOnce(results, found) && ListsOnce(results, other) && k < |found| && k <= |other| && found[..k] == other[..k]
    ensures k < |other| && found[k] == other[k]
  {
    assert forall p | 0 <= p < k :: found[p] == found[..k][p] == other[..k][p] == other[p];
    assert found[k] in other;
    var q :| 0 <= q < |other| && other[q] == found[k];
    if q != k {
      assert other[k] in found;
      var p :| 0 <= p < |found| && found[p] == other[k];
      var i := FirstExists(results, found[k]);
      var j := FirstExists(results, other[k]);
      assert false;
    }
  }

  /** `rows` lists `selected`, each element once, in some order: what a query without ORDER BY returns. */
  ghost predicate Enumerates<T(!new)>(rows: seq<T>, selected: set<T>) {
    NoDuplicates(rows) && forall x :: x in rows <==> x in selected
  }
}
