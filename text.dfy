/**
 * The small pieces of Python/JavaScript string handling the engine relies on: ASCII lower-casing,
 * `str.split(sep)` / `sep.join(...)` on a single-character separator, the "split unless empty"
 * idiom used for comma-separated id lists, `rsplit('.', 1)[1]`, and decimal rendering of naturals.
 */
module Text {

  function ToLowerChar(c: char): (d: char)
    ensures 'A' <= c <= 'Z' ==> d as int == c as int + 32
    ensures !('A' <= c <= 'Z') ==> d == c
  {
    if 'A' <= c <= 'Z' then (c as int + 32) as char else c
  }

  /** `str.lower()` restricted to ASCII letters. */
  function ToLower(s: string): (t: string)
    ensures |t| == |s|
    ensures forall i :: 0 <= i < |s| ==> t[i] == ToLowerChar(s[i])
  {
    if s == [] then [] else [ToLowerChar(s[0])] + ToLower(s[1..])
  }

  /** Text without upper-case ASCII letters is its own lower-case form. */
  lemma ToLowerOfLowerCase(s: string)
    requires forall i :: 0 <= i < |s| ==> !('A' <= s[i] <= 'Z')
    ensures ToLower(s) == s
  {
  }

  /** Lower-casing twice is lower-casing once, so a lower-cased lookup ignores the case of its key. */
  lemma ToLowerIdempotent(s: string)
    ensures ToLower(ToLower(s)) == ToLower(s)
  {
  }

  /** `s.split(sep)`: never empty, and `""` splits to `[""]`. */
  function Split(s: string, sep: char): (parts: seq<string>)
    ensures |parts| >= 1
    decreases |s|
  {
    if |s| == 0 then [""]
    else
      var rest := Split(s[1..], sep);
      if s[0] == sep then [""] + rest else [[s[0]] + rest[0]] + rest[1..]
  }

  /** `sep.join(parts)`. */
  function Join(parts: seq<string>, sep: char): string
  {
    if |parts| == 0 then ""
    else if |parts| == 1 then parts[0]
    else parts[0] + [sep] + Join(parts[1..], sep)
  }

  /** `s.split(',') if s else []`: the reading of a stored comma-separated id list. */
  function Entries(s: string): (ids: seq<string>)
    ensures s == "" <==> ids == []
  {
    if s == "" then [] else Split(s, ',')
  }

  /** A well-formed list entry: the decimal text of an id, never empty and without a comma. */
  predicate IsIdText(x: string) {
    x != "" && ',' !in x
  }

  lemma {:induction false} SplitNoSeparator(a: string, sep: char)
    requires sep !in a
    ensures Split(a, sep) == [a]
    decreases |a|
  {
    if |a| > 0 {
      SplitNoSeparator(a[1..], sep);
      assert [a[0]] + a[1..] == a;
    }
  }

  lemma {:induction false} SplitAtSeparator(a: string, sep: char, b: string)
    requires sep !in a
    ensures Split(a + [sep] + b, sep) == [a] + Split(b, sep)
    decreases |a|
  {
    var s := a + [sep] + b;
    if |a| == 0 {
      assert s[1..] == b;
    } else {
      assert s[1..] == a[1..] + [sep] + b;
      SplitAtSeparator(a[1..], sep, b);
      assert [a[0]] + a[1..] == a;
    }
  }

  /** Splitting a join gives the parts back, when no part contains the separator. */
  lemma {:induction false} SplitJoin(parts: seq<string>, sep: char)
    requires |parts| >= 1
    requires forall i :: 0 <= i < |parts| ==> sep !in parts[i]
    ensures Split(Join(parts, sep), sep) == parts
    decreases |parts|
  {
    if |parts| == 1 {
      SplitNoSeparator(parts[0], sep);
    } else {
      SplitJoin(parts[1..], sep);
      SplitAtSeparator(parts[0], sep, Join(parts[1..], sep));
      assert [parts[0]] + parts[1..] == parts;
    }
  }

  lemma JoinStartsWithFirst(parts: seq<string>, sep: char)
    requires |parts| >= 1
    ensures |Join(parts, sep)| >= |parts[0]| && Join(parts, sep)[..|parts[0]|] == parts[0]
  {
  }

  /** Storing a list of ids with `','.join` and reading it back with `Entries` is the identity. */
  lemma EntriesJoin(ids: seq<string>)
    requires forall i :: 0 <= i < |ids| ==> IsIdText(ids[i])
    ensures Entries(Join(ids, ',')) == ids
  {
    if |ids| >= 1 {
      JoinStartsWithFirst(ids, ',');
      assert Join(ids, ',') != "";
      SplitJoin(ids, ',');
    }
  }

  /** Appending one part to a joined list is appending the separator and the part. */
  lemma {:induction false} JoinAppend(parts: seq<string>, x: string, sep: char)
    requires |parts| >= 1
    ensures Join(parts + [x], sep) == Join(parts, sep) + [sep] + x
    decreases |parts|
  {
    if |parts| == 1 {
      assert (parts + [x])[1..] == [x];
    } else {
      assert (parts + [x])[1..] == parts[1..] + [x];
      JoinAppend(parts[1..], x, sep);
    }
  }

  /** The decimal digits of a natural number, as Python's `str(n)` prints it. */
  function NatToString(n: nat): (s: string)
    ensures |s| >= 1
    ensures forall i :: 0 <= i < |s| ==> '0' <= s[i] <= '9'
  {
    if n < 10 then [('0' as int + n) as char]
    else NatToString(n / 10) + [('0' as int + n % 10) as char]
  }

  /** The text after the last occurrence of `c`, i.e. `s.rsplit(c, 1)[1]` when `c in s`. */
  function AfterLast(s: string, c: char): (t: string)
    requires c in s
    ensures c !in t
    ensures |t| < |s| && s[|s| - |t| - 1] == c && t == s[|s| - |t|..]
  {
    if s[|s| - 1] == c then ""
    else
      assert c in s[..|s| - 1] by {
        var k :| 0 <= k < |s| && s[k] == c;
        assert s[..|s| - 1][k] == c;
      }
      var t := AfterLast(s[..|s| - 1], c);
      t + [s[|s| - 1]]
  }

  /** The last separator of `p + [c] + e` is the one before `e` when `e` holds none. */
  lemma {:induction false} AfterLastOfSuffix(p: string, c: char, e: string)
    requires c !in e
    ensures c in p + [c] + e
    ensures AfterLast(p + [c] + e, c) == e
    decreases |e|
  {
    var s := p + [c] + e;
    assert s[|p|] == c;
    if |e| > 0 {
      var e' := e[..|e| - 1];
      assert s[..|s| - 1] == p + [c] + e';
      AfterLastOfSuffix(p, c, e');
      assert e' + [e[|e| - 1]] == e;
    }
  }
}
