/** The processor brand string as the probe stores it: the 48 raw characters of the
    extended identification leaves with leading spaces dropped and every run of
    spaces between words written as one space. */
module Brand {

  /** The input without its leading spaces. */
  function TrimLeading(s: seq<char>): (t: seq<char>)
    ensures |t| <= |s| && t == s[|s| - |t|..]
    ensures t == [] || t[0] != ' '
    ensures forall i :: 0 <= i < |s| - |t| ==> s[i] == ' '
  {
    if s != [] && s[0] == ' ' then TrimLeading(s[1..]) else s
  }

  /** What the copying loop writes for the rest `s` of the input when `pending`
      says that a space was read since the last character written: a space is
      written only in front of the next non-space character. */
  function Squeeze(s: seq<char>, pending: bool): seq<char>
  {
    if s == [] then []
    else if s[0] == ' ' then Squeeze(s[1..], true)
    else (if pending then [' '] else []) + [s[0]] + Squeeze(s[1..], false)
  }

  /** The compacted brand of a raw brand string: no longer than it, and with no
      leading and no trailing space. */
  function Compact(raw: seq<char>): (c: seq<char>)
    ensures |c| <= |raw|
    ensures Trimmed(c)
  {
    SqueezeShape(TrimLeading(raw), false);
    Squeeze(TrimLeading(raw), false)
  }

  /** No space is followed by another space. */
  predicate NoSpaceRuns(s: seq<char>) {
    forall i :: 0 <= i < |s| - 1 && s[i] == ' ' ==> s[i + 1] != ' '
  }

  /** Neither the first nor the last character is a space. */
  predicate Trimmed(s: seq<char>) {
    s == [] || (s[0] != ' ' && s[|s| - 1] != ' ')
  }

  /** The non-space characters of `s`, in order. */
  function NonSpaces(s: seq<char>): (r: seq<char>)
    ensures |r| <= |s|
  {
    if s == [] then []
    else if s[0] == ' ' then NonSpaces(s[1..])
    else [s[0]] + NonSpaces(s[1..])
  }

  lemma {:induction false} NonSpacesAppend(a: seq<char>, b: seq<char>)
    ensures NonSpaces(a + b) == NonSpaces(a) + NonSpaces(b)
  {
    if a == [] {
      assert a + b == b;
    } else {
      assert (a + b)[0] == a[0];
      assert (a + b)[1..] == a[1..] + b;
      NonSpacesAppend(a[1..], b);
    }
  }

  lemma {:induction false} NonSpacesOfTrimLeading(s: seq<char>)
    ensures NonSpaces(TrimLeading(s)) == NonSpaces(s)
  {
    if s != [] && s[0] == ' ' {
      NonSpacesOfTrimLeading(s[1..]);
    }
  }

  lemma NoSpaceRunsAppend(a: seq<char>, b: seq<char>)
    requires NoSpaceRuns(a) && NoSpaceRuns(b)
    requires a == [] || a[|a| - 1] != ' '
    ensures NoSpaceRuns(a + b)
  {
    var ab := a + b;
    forall i | 0 <= i < |ab| - 1 && ab[i] == ' '
      ensures ab[i + 1] != ' '
    {
      if i + 1 < |a| {
        assert ab[i] == a[i] && ab[i + 1] == a[i + 1];
      } else if i >= |a| {
        assert ab[i] == b[i - |a|] && ab[i + 1] == b[i + 1 - |a|];
      }
    }
  }

  /** What the copying loop writes from a rest of the input: never longer than
      what it reads (plus the pending space), never ending in a space, never two spaces in a row, starting with a space only if one was pending or read first, and with the
      same non-space characters in the same order. */
  lemma {:induction false} SqueezeShape(s: seq<char>, pending: bool)
    ensures |Squeeze(s, pending)| <= |s| + (if pending then 1 else 0)
    ensures Squeeze(s, pending) == [] || Squeeze(s, pending)[|Squeeze(s, pending)| - 1] != ' '
    ensures NoSpaceRuns(Squeeze(s, pending))
    ensures Squeeze(s, pending) != [] && Squeeze(s, pending)[0] == ' ' ==> pending || s[0] == ' '
    ensures NonSpaces(Squeeze(s, pending)) == NonSpaces(s)
  {
    if s == [] {
    } else if s[0] == ' ' {
      SqueezeShape(s[1..], true);
    } else {
      var rest := Squeeze(s[1..], false);
      SqueezeShape(s[1..], false);
      var head := (if pending then [' '] else []) + [s[0]];
      assert NoSpaceRuns(head);
      NoSpaceRunsAppend(head, rest);
      NonSpacesAppend(head, rest);
      assert NonSpaces(head) == [s[0]];
      assert Squeeze(s, pending) == head + rest;
    }
  }

  /** The compacted brand is at most as long as the raw one, has no leading and no
      trailing space and no two adjacent spaces, and keeps exactly the non-space
      characters of the raw brand, in order. */
  lemma CompactProperties(raw: seq<char>)
    ensures |Compact(raw)| <= |raw|
    ensures Trimmed(Compact(raw))
    ensures NoSpaceRuns(Compact(raw))
    ensures NonSpaces(Compact(raw)) == NonSpaces(raw)
  {
    SqueezeShape(TrimLeading(raw), false);
    NonSpacesOfTrimLeading(raw);
  }

  /** A pending space in front of a non-space character is written just before it. */
  lemma PendingSpace(t: seq<char>)
    requires t != [] && t[0] != ' '
    ensures Squeeze(t, true) == [' '] + Squeeze(t, false)
  {
  }

  /** A string that is already compact comes through the copying loop unchanged. */
  lemma {:induction false} SqueezeOfCompact(t: seq<char>)
    requires Trimmed(t) && NoSpaceRuns(t)
    ensures Squeeze(t, false) == t
    decreases |t|
  {
    if t != [] {
      var u := t[1..];
      assert Squeeze(t, false) == [t[0]] + Squeeze(u, false);
      if u == [] {
      } else if u[0] != ' ' {
        NoSpaceRunsOfSuffix(t, 1);
        assert u[|u| - 1] == t[|t| - 1];
        SqueezeOfCompact(u);
        assert t == [t[0]] + u;
      } else {
        var v := t[2..];
        assert u[1..] == v;
        assert Squeeze(u, false) == Squeeze(v, true);
        assert t[1] == ' ' && v != [] && v[0] == t[2] != ' ';
        NoSpaceRunsOfSuffix(t, 2);
        assert v[|v| - 1] == t[|t| - 1];
        SqueezeOfCompact(v);
        PendingSpace(v);
        assert t == [t[0]] + [' '] + v;
      }
    }
  }

  lemma NoSpaceRunsOfSuffix(t: seq<char>, k: nat)
    requires NoSpaceRuns(t) && k <= |t|
    ensures NoSpaceRuns(t[k..])
  {
    var v := t[k..];
    forall i | 0 <= i < |v| - 1 && v[i] == ' '
      ensures v[i + 1] != ' '
    {
      assert v[i] == t[k + i] && v[i + 1] == t[k + i + 1];
    }
  }

  /** Compacting twice gives the same brand as compacting once. */
  lemma CompactIsIdempotent(raw: seq<char>)
    ensures Compact(Compact(raw)) == Compact(raw)
  {
    CompactProperties(raw);
    var c := Compact(raw);
    assert TrimLeading(c) == c;
    SqueezeOfCompact(c);
  }

  /** A run of `n` spaces. */
  function Spaces(n: nat): (s: seq<char>)
    ensures |s| == n && forall i :: 0 <= i < n ==> s[i] == ' '
  {
    seq(n, _ => ' ')
  }

  /** Input after a word (a part ending in a non-space) is copied on its own, with
      no space pending. */
  lemma {:induction false} SqueezeAfterWord(a: seq<char>, b: seq<char>, pending: bool)
    requires a != [] && a[|a| - 1] != ' '
    ensures Squeeze(a + b, pending) == Squeeze(a, pending) + Squeeze(b, false)
    decreases |a|
  {
    assert (a + b)[0] == a[0];
    assert (a + b)[1..] == a[1..] + b;
    if |a| == 1 {
      assert a[1..] + b == b;
    } else {
      SqueezeAfterWord(a[1..], b, a[0] == ' ');
    }
  }

  /** A run of spaces only leaves a space pending. */
  lemma {:induction false} SqueezeAfterSpaces(n: nat, b: seq<char>, pending: bool)
    requires n >= 1
    ensures Squeeze(Spaces(n) + b, pending) == Squeeze(b, true)
    decreases n
  {
    var s := Spaces(n) + b;
    assert s[0] == ' ';
    assert s[1..] == Spaces(n - 1) + b;
    if n > 1 {
      SqueezeAfterSpaces(n - 1, b, true);
    } else {
      assert Spaces(0) + b == b;
    }
  }

  /** Spaces at the end of the input are never written. */
  lemma {:induction false} SqueezeOfSpaces(n: nat, pending: bool)
    ensures Squeeze(Spaces(n), pending) == []
    decreases n
  {
    if n > 0 {
      assert Spaces(n)[1..] == Spaces(n - 1);
      SqueezeOfSpaces(n - 1, true);
    }
  }

  /** A run of one or more spaces between two words is written as exactly one space. */
  lemma {:induction false} OneSpaceBetweenWords(a: seq<char>, n: nat, b: seq<char>)
    requires a != [] && a[|a| - 1] != ' '
    requires n >= 1
    requires b != [] && b[0] != ' '
    ensures Squeeze(a + Spaces(n) + b, false) == Squeeze(a, false) + [' '] + Squeeze(b, false)
  {
    var rest := Spaces(n) + b;
    assert a + Spaces(n) + b == a + rest;
    SqueezeAfterWord(a, rest, false);
    SqueezeAfterSpaces(n, b, false);
    PendingSpace(b);
    var sa, sb := Squeeze(a, false), Squeeze(b, false);
    assert sa + ([' '] + sb) == sa + [' '] + sb;
  }

  /** The compacted brand of two words separated by a run of spaces is the two
      compacted words separated by one space. */
  lemma {:induction false} CompactJoinsWords(a: seq<char>, n: nat, b: seq<char>)
    requires a != [] && a[0] != ' ' && a[|a| - 1] != ' '
    requires n >= 1
    requires b != [] && b[0] != ' '
    ensures Compact(a + Spaces(n) + b) == Compact(a) + [' '] + Compact(b)
  {
    assert (a + Spaces(n) + b)[0] == a[0];
    OneSpaceBetweenWords(a, n, b);
  }

  /** Spaces before and after the words are dropped. */
  lemma {:induction false} CompactDropsOuterSpaces(m: nat, a: seq<char>, n: nat)
    requires a != [] && a[0] != ' ' && a[|a| - 1] != ' '
    ensures Compact(Spaces(m) + a + Spaces(n)) == Compact(a)
  {
    TrimOfSpaces(m, a + Spaces(n));
    assert Spaces(m) + a + Spaces(n) == Spaces(m) + (a + Spaces(n));
    SqueezeAfterWord(a, Spaces(n), false);
    SqueezeOfSpaces(n, false);
  }

  /** Skipping the leading spaces of a run of spaces before a word gives the word. */
  lemma {:induction false} TrimOfSpaces(m: nat, t: seq<char>)
    requires t != [] && t[0] != ' '
    ensures TrimLeading(Spaces(m) + t) == t
    decreases m
  {
    if m == 0 {
      assert Spaces(0) + t == t;
    } else {
      assert (Spaces(m) + t)[1..] == Spaces(m - 1) + t;
      TrimOfSpaces(m - 1, t);
    }
  }

  /** What the copying loop writes when it reads the non-space character `c`: the
      held-back space, if any, and then `c`. */
  function Emit(pending: bool, c: char): (w: seq<char>)
    ensures |w| == (if pending then 2 else 1) && w[|w| - 1] == c
  {
    (if pending then [' '] else []) + [c]
  }

  /** One step of the copying loop at read index `p`: a space only becomes pending,
      any other character is emitted after the pending space. */
  lemma SqueezeStep(raw: seq<char>, p: nat, pending: bool, written: seq<char>, target: seq<char>)
    requires p < |raw| && written + Squeeze(raw[p..], pending) == target
    ensures raw[p] == ' ' ==> written + Squeeze(raw[p + 1..], true) == target
    ensures raw[p] != ' ' ==> written + Emit(pending, raw[p]) + Squeeze(raw[p + 1..], false) == target
  {
    assert raw[p..][1..] == raw[p + 1..];
    if raw[p] != ' ' {
      assert Squeeze(raw[p..], pending) == Emit(pending, raw[p]) + Squeeze(raw[p + 1..], false);
    }
  }

  /** `*q++ = c`: writes one character at the write index and advances it. */
  method Put(dst: array<char>, q: nat, c: char) returns (next: nat)
    requires q < dst.Length
    modifies dst
    ensures next == q + 1
    ensures dst[..next] == old(dst[..q]) + [c]
    ensures forall k :: next <= k < dst.Length ==> dst[k] == old(dst[k])
  {
    dst[q] := c;
    next := q + 1;
  }

  /** The first loop of the brand compaction: the index of the first non-space
      character of `raw`, or its length when there is none. */
  method SkipLeadingSpaces(raw: seq<char>) returns (p: nat)
    ensures p <= |raw| && raw[p..] == TrimLeading(raw)
  {
    p := 0;
    while p < |raw| && raw[p] == ' '
      invariant 0 <= p <= |raw|
      invariant TrimLeading(raw[p..]) == TrimLeading(raw)
    {
      assert raw[p..][1..] == raw[p + 1..];
      p := p + 1;
    }
  }

  /** The second loop of the brand compaction: copies `raw[start..]` into `dst`
      from index 0, holding back each run of spaces until a non-space character
      follows; returns the write index `q` at the end. */
  method CopySqueezed(raw: seq<char>, start: nat, dst: array<char>) returns (q: nat)
    requires start <= |raw| < dst.Length
    modifies dst
    ensures q <= |raw| - start
    ensures dst[..q] == Squeeze(raw[start..], false)
    ensures forall k :: q <= k < dst.Length ==> dst[k] == old(dst[k])
  {
    ghost var target := Squeeze(raw[start..], false);
    var p := start;
    q := 0;
    var space := false;
    ghost var written: seq<char> := [];
    while p < |raw|
      invariant start <= p <= |raw|
      invariant q == |written| && q + (if space then 1 else 0) <= p - start
      invariant dst[..q] == written
      invariant written + Squeeze(raw[p..], space) == target
      invariant forall k :: q <= k < dst.Length ==> dst[k] == old(dst[k])
    {
      SqueezeStep(raw, p, space, written, target);
      var c := raw[p];
      if c == ' ' {
        space := true;
      } else {
        if space {
          q := Put(dst, q, ' ');
        }
        q := Put(dst, q, c);
        written := written + Emit(space, c);
        space := false;
      }
      p := p + 1;
    }
    assert raw[p..] == [];
  }

  /** The brand compaction: skips the leading spaces of `raw`, copies the rest into
      `dst` with every run of spaces between words written as one space, and ends
      the string with a NUL. */
  method CompactBrand(raw: seq<char>, dst: array<char>) returns (q: nat)
    requires |raw| < dst.Length
    modifies dst
    ensures q <= |raw|
    ensures dst[..q] == Compact(raw)
    ensures dst[q] == '\0'
    ensures forall k :: q < k < dst.Length ==> dst[k] == old(dst[k])
  {
    var p := SkipLeadingSpaces(raw);
    q := CopySqueezed(raw, p, dst);
    dst[q] := '\0';
  }
}
