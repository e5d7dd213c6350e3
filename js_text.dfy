/** The JavaScript string built-ins the application relies on: `trim()`,
    `includes`, `split(sep)[0]` / `split(sep)[1]`, `replace(/\s+/g, '_')`,
    number-to-string conversion and `join('')`. Strings are sequences of
    Unicode scalar values. */
module JsText {
  import opened Wrappers

  /** The characters matched by the regular-expression class `\s` and
      removed by `String.prototype.trim`: WhiteSpace and LineTerminator. */
  predicate IsJsSpace(c: char)
  {
    var n := c as int;
    n == 0x09 || n == 0x0A || n == 0x0B || n == 0x0C || n == 0x0D || n == 0x20 ||
    n == 0xA0 || n == 0x1680 || (0x2000 <= n <= 0x200A) || n == 0x2028 || n == 0x2029 ||
    n == 0x202F || n == 0x205F || n == 0x3000 || n == 0xFEFF
  }

  predicate AllSpace(s: string)
  {
    forall i :: 0 <= i < |s| ==> IsJsSpace(s[i])
  }

  /** Drops the leading run of whitespace. */
  function TrimStart(s: string): (r: string)
    ensures |r| <= |s| && r == s[|s| - |r|..]
    ensures r == [] || !IsJsSpace(r[0])
    ensures forall i :: 0 <= i < |s| - |r| ==> IsJsSpace(s[i])
  {
    if s != [] && IsJsSpace(s[0]) then TrimStart(s[1..]) else s
  }

  /** Drops the trailing run of whitespace. */
  function TrimEnd(s: string): (r: string)
    ensures |r| <= |s| && r == s[..|r|]
    ensures r == [] || !IsJsSpace(r[|r| - 1])
    ensures forall i :: |r| <= i < |s| ==> IsJsSpace(s[i])
  {
    if s != [] && IsJsSpace(s[|s| - 1]) then TrimEnd(s[..|s| - 1]) else s
  }

  /** `s.trim()` */
  function Trim(s: string): string
  {
    TrimEnd(TrimStart(s))
  }

  /** `!s.trim()`: the guard every prompt field is checked with. */
  predicate IsBlank(s: string)
  {
    Trim(s) == ""
  }

  /** A string is blank exactly when every character of it is whitespace. */
  lemma BlankIffAllSpace(s: string)
    ensures IsBlank(s) <==> AllSpace(s)
  {

  }

  /** `sub` occurs in `s` starting at index `i`. */
  predicate OccursAt(s: string, sub: string, i: int)
  {
    0 <= i && i + |sub| <= |s| && s[i..i + |sub|] == sub
  }

  /** `s.indexOf(sub, from)`, with `None` for -1. */
  function IndexFrom(s: string, sub: string, from: nat): (r: Option<nat>)
    requires |sub| > 0
    decreases |s| - from
    ensures r.Some? ==> from <= r.value && OccursAt(s, sub, r.value)
    ensures r.Some? ==> forall j :: from <= j < r.value ==> !OccursAt(s, sub, j)
    ensures r.None? ==> forall j :: from <= j ==> !OccursAt(s, sub, j)
  {
    if from + |sub| > |s| then None
    else if s[from..from + |sub|] == sub then Some(from)
    else IndexFrom(s, sub, from + 1)
  }

  /** The search finds the first occurrence at or after `from`. */
  lemma IndexFromIs(s: string, sub: string, from: nat, p: nat)
    requires |sub| > 0 && from <= p && OccursAt(s, sub, p)
    requires forall j :: from <= j < p ==> !OccursAt(s, sub, j)
    ensures IndexFrom(s, sub, from) == Some(p)
  {
  }

  /** No occurrence can start at a position whose character differs from
      the first character of `sub`. */
  lemma IndexFromAbsent(s: string, sub: string, from: nat)
    requires |sub| > 0
    requires forall j :: from <= j < |s| ==> s[j] != sub[0]
    ensures IndexFrom(s, sub, from) == None
  {
    forall j | from <= j ensures !OccursAt(s, sub, j) {
      if j < |s| {
        assert j + |sub| <= |s| ==> s[j..j + |sub|][0] == s[j];
      }
    }
    IndexFromNone(s, sub, from);
  }

  lemma IndexFromNone(s: string, sub: string, from: nat)
    requires |sub| > 0
    requires forall j :: from <= j ==> !OccursAt(s, sub, j)
    ensures IndexFrom(s, sub, from) == None
  {
  }

  /** `s.includes(sub)` */
  predicate Includes(s: string, sub: string)
    requires |sub| > 0
  {
    IndexFrom(s, sub, 0).Some?
  }

  /** An occurrence anywhere makes `includes` true. */
  lemma IncludesAt(s: string, sub: string, p: nat)
    requires |sub| > 0 && OccursAt(s, sub, p)
    ensures Includes(s, sub)
  {
  }

  /** `s.split(sep)[0]`: everything before the first separator. */
  function SplitFirst(s: string, sep: string): (r: string)
    requires |sep| > 0
    ensures IndexFrom(s, sep, 0).None? ==> r == s
    ensures IndexFrom(s, sep, 0).Some? ==> r == s[..IndexFrom(s, sep, 0).value]
  {
    match IndexFrom(s, sep, 0)
    case None => s
    case Some(i) => s[..i]
  }

  /** `s.split(sep)[1]`: the text between the first and the second
      separator (or the end), `undefined` when no separator occurs. */
  function SplitSecond(s: string, sep: string): (r: Option<string>)
    requires |sep| > 0
  {
    match IndexFrom(s, sep, 0)
    case None => None
    case Some(i) =>
      match IndexFrom(s, sep, i + |sep|)
      case None => Some(s[i + |sep|..])
      case Some(j) => Some(s[i + |sep|..j])
  }

  /** The second piece never contains the separator. */
  lemma SplitSecondHasNoSeparator(s: string, sep: string)
    requires |sep| > 0
    ensures SplitSecond(s, sep).Some? ==> IndexFrom(SplitSecond(s, sep).value, sep, 0).None?
  {
    if SplitSecond(s, sep).None? { return; }
    var i := IndexFrom(s, sep, 0).value;
    var start := i + |sep|;
    var second := IndexFrom(s, sep, start);
    var end := if second.Some? then second.value else |s|;
    var piece := s[start..end];
    assert SplitSecond(s, sep).value == piece;
    NoOccurrenceInside(s, sep, start, end);
    IndexFromNone(piece, sep, 0);
  }

  lemma NoOccurrenceInside(s: string, sep: string, start: nat, end: nat)
    requires |sep| > 0 && start <= end <= |s|
    requires forall j :: start <= j < end ==> !OccursAt(s, sep, j)
    ensures forall k :: 0 <= k ==> !OccursAt(s[start..end], sep, k)
  {
    var piece := s[start..end];
    forall k | 0 <= k ensures !OccursAt(piece, sep, k) {
      if k + |sep| <= |piece| {
        var a, b := piece[k..k + |sep|], s[start + k..start + k + |sep|];
        assert a == b by {
          forall m | 0 <= m < |sep| ensures a[m] == b[m] {
            assert piece[k + m] == s[start + k + m];
          }
        }
        assert !OccursAt(s, sep, start + k);
      }
    }
  }

  /** `s.replace(/\s+/g, '_')`: every maximal whitespace run becomes one `_`. */
  function CollapseSpaces(s: string): (r: string)
    ensures |r| <= |s|
    ensures forall i :: 0 <= i < |r| ==> !IsJsSpace(r[i])
    decreases |s|
  {
    if s == [] then []
    else if IsJsSpace(s[0]) then ['_'] + CollapseSpaces(TrimStart(s[1..]))
    else [s[0]] + CollapseSpaces(s[1..])
  }

  /** A string without whitespace is left as it is. */
  lemma {:induction false} CollapseSpacesIdentity(s: string)
    requires forall i :: 0 <= i < |s| ==> !IsJsSpace(s[i])
    ensures CollapseSpaces(s) == s
  {
    if s != [] {
      CollapseSpacesIdentity(s[1..]);
    }
  }

  /** One run of whitespace, however long, yields one `_`. */
  lemma {:induction false} CollapseSpacesRun(pre: string, run: string, post: string)
    requires run != [] && AllSpace(run)
    requires post == [] || !IsJsSpace(post[0])
    requires forall i :: 0 <= i < |pre| ==> !IsJsSpace(pre[i])
    ensures CollapseSpaces(pre + run + post) == pre + "_" + CollapseSpaces(post)
  {
    var s := pre + run + post;
    if pre == [] {
      assert s == run + post;
      assert IsJsSpace(s[0]);
      assert s[1..] == run[1..] + post;
      TrimStartOfRun(run[1..], post);
      assert CollapseSpaces(s) == ['_'] + CollapseSpaces(post);
    } else {
      assert s[0] == pre[0];
      assert s[1..] == pre[1..] + run + post;
      CollapseSpacesRun(pre[1..], run, post);
      assert CollapseSpaces(s) == [pre[0]] + CollapseSpaces(s[1..]);
      assert pre == [pre[0]] + pre[1..];
    }
  }

  lemma {:induction false} TrimStartOfRun(run: string, post: string)
    requires AllSpace(run)
    requires post == [] || !IsJsSpace(post[0])
    ensures TrimStart(run + post) == post
  {
    if run != [] {
      assert (run + post)[1..] == run[1..] + post;
      TrimStartOfRun(run[1..], post);
    }
  }

  function DigitChar(d: nat): (c: char)
    requires d < 10
    ensures '0' <= c <= '9'
    ensures c as int == '0' as int + d
  {
    (48 + d) as char
  }

  /** Decimal rendering of a natural number, as template literals render it. */
  function NatToString(n: nat): (r: string)
    ensures |r| >= 1
    ensures forall i :: 0 <= i < |r| ==> '0' <= r[i] <= '9'
    ensures |r| > 1 ==> r[0] != '0'
    decreases n
  {
    if n < 10 then [DigitChar(n)] else NatToString(n / 10) + [DigitChar(n % 10)]
  }

  /** Different numbers render differently. */
  lemma {:induction false} NatToStringInjective(m: nat, n: nat)
    requires NatToString(m) == NatToString(n)
    ensures m == n
    decreases m
  {
    var sm, sn := NatToString(m), NatToString(n);
    if m >= 10 && n >= 10 {
      assert sm[|sm| - 1] == DigitChar(m % 10) && sn[|sn| - 1] == DigitChar(n % 10);
      assert sm[..|sm| - 1] == NatToString(m / 10) && sn[..|sn| - 1] == NatToString(n / 10);
      NatToStringInjective(m / 10, n / 10);
    }
  }

  /** `parts.join('')` */
  function Concat(parts: seq<string>): (r: string)
  {
    if parts == [] then "" else Concat(parts[..|parts| - 1]) + parts[|parts| - 1]
  }

  /** Joining distributes over concatenation of the piece lists. */
  lemma {:induction false} ConcatAppend(a: seq<string>, b: seq<string>)
    ensures Concat(a + b) == Concat(a) + Concat(b)
    decreases |b|
  {
    if b == [] {
      assert a + b == a;
    } else {
      var b' := b[..|b| - 1];
      assert (a + b)[..|a + b| - 1] == a + b';
      ConcatAppend(a, b');
    }
  }

  /** `xs.map(f).join('')` */
  function JoinMap<T>(xs: seq<T>, f: T -> string): string
  {
    Concat(seq(|xs|, i requires 0 <= i < |xs| => f(xs[i])))
  }

  /** Mapping then joining emits one piece per element, in order: the piece
      of an element sits between the pieces of the elements before it and
      those after it. */
  lemma JoinMapInOrder<T>(before: seq<T>, x: T, after: seq<T>, f: T -> string)
    ensures JoinMap(before + [x] + after, f) == JoinMap(before, f) + f(x) + JoinMap(after, f)
  {
    var pieces := seq(|before|, i requires 0 <= i < |before| => f(before[i]));
    var rest := seq(|after|, i requires 0 <= i < |after| => f(after[i]));
    var xs := before + [x] + after;
    assert seq(|xs|, i requires 0 <= i < |xs| => f(xs[i])) == pieces + [f(x)] + rest;
    ConcatAppend(pieces + [f(x)], rest);
    ConcatAppend(pieces, [f(x)]);
    assert Concat([f(x)]) == Concat([]) + f(x);
  }
}
