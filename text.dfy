// String helpers shared by the Go and Python services.
//
// Characters are ASCII: whitespace is Go's unicode.IsSpace on ASCII (space
// and the control characters TAB through CR), which strings.TrimSpace and
// strings.Fields use. Python's str.strip and `\s` on str also count the
// separators 0x1C-0x1F; the Python members use this same class, so they
// differ from the source on those four characters. Letters and digits are
// the ASCII ones.
module Text {

  predicate IsSpace(c: char) { c == ' ' || ('\t' <= c <= '\r') }
  predicate IsLetter(c: char) { ('a' <= c <= 'z') || ('A' <= c <= 'Z') }
  predicate IsDigit(c: char) { '0' <= c <= '9' }
  predicate IsAlnum(c: char) { IsLetter(c) || IsDigit(c) }
  predicate NotSpace(c: char) { !IsSpace(c) }

  predicate AllSpace(s: string) { forall k :: 0 <= k < |s| ==> IsSpace(s[k]) }

  // ---------------------------------------------------------------- case

  function LowerChar(c: char): (d: char)
    ensures IsLetter(c) <==> IsLetter(d)
    ensures IsDigit(c) <==> IsDigit(d)
    ensures !('A' <= d <= 'Z')
  {
    if 'A' <= c <= 'Z' then (c as int + 32) as char else c
  }

  /** strings.ToLower restricted to ASCII. */
  function ToLower(s: string): (r: string)
    ensures |r| == |s|
    ensures forall k :: 0 <= k < |s| ==> r[k] == LowerChar(s[k])
  {
    if s == [] then [] else [LowerChar(s[0])] + ToLower(s[1..])
  }

  // ---------------------------------------------------------------- trimming

  /** The number of whitespace characters `s` starts with. */
  function LeadingSpaces(s: string): (n: nat)
    ensures n <= |s|
    ensures forall k :: 0 <= k < n ==> IsSpace(s[k])
    ensures n < |s| ==> !IsSpace(s[n])
    decreases |s|
  {
    if s != [] && IsSpace(s[0]) then
      var m := LeadingSpaces(s[1..]);
      assert forall k :: 1 <= k <= m ==> s[k] == s[1..][k - 1];
      1 + m
    else 0
  }

  /** Where the whitespace `s` ends with begins. */
  function TrailingStart(s: string): (n: nat)
    ensures n <= |s|
    ensures forall k :: n <= k < |s| ==> IsSpace(s[k])
    ensures 0 < n ==> !IsSpace(s[n - 1])
    decreases |s|
  {
    if s != [] && IsSpace(s[|s| - 1]) then
      var t := s[..|s| - 1];
      var m := TrailingStart(t);
      assert forall k :: m <= k < |t| ==> s[k] == t[k];
      m
    else |s|
  }

  /** Removes leading whitespace: the result is the longest suffix of `s`
      that does not start with whitespace. */
  function TrimLeft(s: string): (r: string)
    ensures |r| <= |s| && r == s[|s| - |r|..]
    ensures forall k :: 0 <= k < |s| - |r| ==> IsSpace(s[k])
    ensures r == [] || !IsSpace(r[0])
    ensures s != [] && IsSpace(s[0]) ==> |r| < |s|
  {
    var n := LeadingSpaces(s);
    assert n < |s| ==> s[n..][0] == s[n];
    s[n..]
  }

  /** Removes trailing whitespace: the result is the longest prefix of `s`
      that does not end with whitespace. */
  function TrimRight(s: string): (r: string)
    ensures |r| <= |s| && r == s[..|r|]
    ensures forall k :: |r| <= k < |s| ==> IsSpace(s[k])
    ensures r == [] || !IsSpace(r[|r| - 1])
  {
    var n := TrailingStart(s);
    assert 0 < n ==> s[..n][n - 1] == s[n - 1];
    s[..n]
  }

  predicate Stripped(s: string) { s == [] || (!IsSpace(s[0]) && !IsSpace(s[|s| - 1])) }

  /** Go strings.TrimSpace and Python str.strip(). */
  function Strip(s: string): (r: string)
    ensures Stripped(r)
    ensures |r| <= |s|
    ensures r == [] <==> AllSpace(s)
    ensures Stripped(s) ==> r == s
  {
    var l := TrimLeft(s);
    var r := TrimRight(l);
    assert r != [] ==> !IsSpace(r[0]) by {
      if r != [] { assert r[0] == l[0]; }
    }
    assert r == [] ==> l == [];
    r
  }

  // ---------------------------------------------------------------- whitespace runs

  /** Keeps the characters of `s` that satisfy `keep`, in order. */
  function Filter(s: string, keep: char -> bool): (r: string)
    ensures |r| <= |s|
    ensures forall k :: 0 <= k < |r| ==> keep(r[k])
  {
    if s == [] then []
    else (if keep(s[0]) then [s[0]] else []) + Filter(s[1..], keep)
  }

  lemma {:induction false} FilterAppend(a: string, b: string, keep: char -> bool)
    ensures Filter(a + b, keep) == Filter(a, keep) + Filter(b, keep)
    decreases |a|
  {
    if a == [] {
      assert a + b == b;
    } else {
      assert (a + b)[0] == a[0];
      assert (a + b)[1..] == a[1..] + b;
      FilterAppend(a[1..], b, keep);
    }
  }

  /** Every whitespace character is a single ' ' followed by a non-space. */
  predicate Collapsed(s: string)
    decreases |s|
  {
    s == [] ||
    ((IsSpace(s[0]) ==> s[0] == ' ' && (|s| > 1 ==> !IsSpace(s[1]))) && Collapsed(s[1..]))
  }

  /** Python `re.sub(r'\s+', ' ', s)`: every maximal run of whitespace is
      replaced by one space. */
  function Collapse(s: string): (r: string)
    ensures Collapsed(r)
    ensures r == [] <==> s == []
    ensures s != [] ==> (IsSpace(r[0]) <==> IsSpace(s[0]))
    ensures s != [] ==> (IsSpace(r[|r| - 1]) <==> IsSpace(s[|s| - 1]))
    decreases |s|
  {
    if s == [] then []
    else if IsSpace(s[0]) then
      var rest := TrimLeft(s);
      assert rest != [] ==> s[|s| - 1] == rest[|rest| - 1];
      [' '] + Collapse(rest)
    else
      [s[0]] + Collapse(s[1..])
  }

  /** Collapsing keeps every non-whitespace character, in order. */
  lemma {:induction false} CollapseKeepsText(s: string)
    ensures Filter(Collapse(s), NotSpace) == Filter(s, NotSpace)
    decreases |s|
  {
    if s == [] {
    } else if IsSpace(s[0]) {
      var rest := TrimLeft(s);
      var pre := s[..|s| - |rest|];
      assert s == pre + rest;
      FilterAppend(pre, rest, NotSpace);
      FilterSpaces(pre);
      FilterAppend([' '], Collapse(rest), NotSpace);
      CollapseKeepsText(rest);
    } else {
      assert s == [s[0]] + s[1..];
      FilterAppend([s[0]], s[1..], NotSpace);
      FilterAppend([s[0]], Collapse(s[1..]), NotSpace);
      CollapseKeepsText(s[1..]);
    }
  }

  lemma {:induction false} FilterSpaces(s: string)
    requires AllSpace(s)
    ensures Filter(s, NotSpace) == []
    decreases |s|
  {
    if s != [] { FilterSpaces(s[1..]); }
  }

  /** A single space in front of a non-space is all TrimLeft removes. */
  lemma TrimLeftOneSpace(s: string)
    requires s != [] && IsSpace(s[0])
    requires s[1..] == [] || !IsSpace(s[1])
    ensures TrimLeft(s) == s[1..]
  {
    assert TrimLeft(s) == TrimLeft(s[1..]);
  }

  /** A string that is already collapsed is left alone. */
  lemma {:induction false} CollapseIdempotent(s: string)
    requires Collapsed(s)
    ensures Collapse(s) == s
    decreases |s|
  {
    if s != [] {
      CollapseIdempotent(s[1..]);
      if IsSpace(s[0]) {
        assert s[0] == ' ';
        assert |s| > 1 ==> !IsSpace(s[1]);
        TrimLeftOneSpace(s);
        assert Collapse(s) == [' '] + Collapse(s[1..]);
      } else {
        assert Collapse(s) == [s[0]] + Collapse(s[1..]);
      }
      assert s == [s[0]] + s[1..];
    }
  }

  /** Stripped and collapsed: the form both Python `_clean_text` helpers produce
      before their own final step. */
  predicate Normalized(s: string) { Stripped(s) && Collapsed(s) }

  function Normalize(s: string): (r: string)
    ensures Normalized(r)
    ensures r == [] <==> AllSpace(s)
    ensures Normalized(s) ==> r == s
  {
    var t := Strip(s);
    assert Normalized(s) ==> Collapse(t) == s by {
      if Normalized(s) { CollapseIdempotent(s); }
    }
    Collapse(t)
  }

  /** A prefix of a collapsed string is collapsed. */
  lemma {:induction false} CollapsedPrefix(s: string, m: nat)
    requires Collapsed(s) && m <= |s|
    ensures Collapsed(s[..m])
    decreases m
  {
    if m > 0 {
      var p := s[..m];
      assert p[0] == s[0] && p[1..] == s[1..][..m - 1];
      assert |p| > 1 ==> p[1] == s[1];
      CollapsedPrefix(s[1..], m - 1);
    }
  }

  /** Appending characters none of which is whitespace keeps a string
      collapsed. */
  lemma {:induction false} CollapsedAppend(a: string, b: string)
    requires Collapsed(a) && forall k :: 0 <= k < |b| ==> !IsSpace(b[k])
    ensures Collapsed(a + b)
    decreases |a|
  {
    if a == [] {
      assert a + b == b;
      CollapsedNoSpaces(b);
    } else {
      var c := a + b;
      assert c[0] == a[0] && c[1..] == a[1..] + b;
      assert |c| > 1 ==> c[1] == (if |a| > 1 then a[1] else b[0]);
      CollapsedAppend(a[1..], b);
    }
  }

  lemma {:induction false} CollapsedNoSpaces(b: string)
    requires forall k :: 0 <= k < |b| ==> !IsSpace(b[k])
    ensures Collapsed(b)
    decreases |b|
  {
    if b != [] {
      assert forall k :: 0 <= k < |b[1..]| ==> b[1..][k] == b[k + 1];
      CollapsedNoSpaces(b[1..]);
    }
  }

  /** A collapsed string that does not start with whitespace, followed by a
      non-empty run of non-whitespace characters, is normalized. */
  lemma NormalizedExtend(a: string, b: string)
    requires Collapsed(a) && (a == [] || !IsSpace(a[0]))
    requires b != [] && forall k :: 0 <= k < |b| ==> !IsSpace(b[k])
    ensures Normalized(a + b)
  {
    CollapsedAppend(a, b);
    var c := a + b;
    assert c[|c| - 1] == b[|b| - 1];
    assert c[0] == (if a == [] then b[0] else a[0]);
  }

  lemma TrimLeftKeepsText(s: string)
    ensures Filter(TrimLeft(s), NotSpace) == Filter(s, NotSpace)
  {
    var l := TrimLeft(s);
    assert s == s[..|s| - |l|] + l;
    FilterAppend(s[..|s| - |l|], l, NotSpace);
    FilterSpaces(s[..|s| - |l|]);
  }

  lemma TrimRightKeepsText(s: string)
    ensures Filter(TrimRight(s), NotSpace) == Filter(s, NotSpace)
  {
    var t := TrimRight(s);
    assert s == t + s[|t|..];
    FilterAppend(t, s[|t|..], NotSpace);
    FilterSpaces(s[|t|..]);
  }

  /** Normalizing keeps every non-whitespace character, in order. */
  lemma NormalizeKeepsText(s: string)
    ensures Filter(Normalize(s), NotSpace) == Filter(s, NotSpace)
  {
    TrimLeftKeepsText(s);
    TrimRightKeepsText(TrimLeft(s));
    CollapseKeepsText(Strip(s));
  }

  // ---------------------------------------------------------------- token runs

  /** The longest prefix of `s` whose characters all satisfy `keep`. */
  function TakeWhile(s: string, keep: char -> bool): (r: string)
    ensures |r| <= |s| && r == s[..|r|]
    ensures forall k :: 0 <= k < |r| ==> keep(r[k])
    ensures |r| < |s| ==> !keep(s[|r|])
    decreases |s|
  {
    if s != [] && keep(s[0]) then [s[0]] + TakeWhile(s[1..], keep) else []
  }

  /** The maximal runs of characters satisfying `keep`, left to right. */
  function Runs(s: string, keep: char -> bool): seq<string>
    decreases |s|
  {
    if s == [] then []
    else if !keep(s[0]) then Runs(s[1..], keep)
    else
      var t := TakeWhile(s, keep);
      [t] + Runs(s[|t|..], keep)
  }

  /** No run is empty and every character of a run is kept. */
  lemma {:induction false} RunsWellFormed(s: string, keep: char -> bool)
    ensures forall i :: 0 <= i < |Runs(s, keep)| ==> Runs(s, keep)[i] != []
    ensures forall i, k :: 0 <= i < |Runs(s, keep)| && 0 <= k < |Runs(s, keep)[i]| ==> keep(Runs(s, keep)[i][k])
    decreases |s|
  {
    if s != [] {
      if !keep(s[0]) {
        RunsWellFormed(s[1..], keep);
      } else {
        var t := TakeWhile(s, keep);
        RunsWellFormed(s[|t|..], keep);
        assert Runs(s, keep) == [t] + Runs(s[|t|..], keep);
      }
    }
  }

  function Concat(ts: seq<string>): string {
    if ts == [] then [] else ts[0] + Concat(ts[1..])
  }

  /** Gluing the runs back together gives exactly the kept characters. */
  lemma {:induction false} RunsConcat(s: string, keep: char -> bool)
    ensures Concat(Runs(s, keep)) == Filter(s, keep)
    decreases |s|
  {
    if s == [] {
    } else if !keep(s[0]) {
      RunsConcat(s[1..], keep);
    } else {
      var t := TakeWhile(s, keep);
      assert s == t + s[|t|..];
      FilterAppend(t, s[|t|..], keep);
      FilterAll(t, keep);
      RunsConcat(s[|t|..], keep);
      assert Runs(s, keep)[1..] == Runs(s[|t|..], keep);
    }
  }

  lemma {:induction false} FilterAll(s: string, keep: char -> bool)
    requires forall k :: 0 <= k < |s| ==> keep(s[k])
    ensures Filter(s, keep) == s
    decreases |s|
  {
    if s != [] { FilterAll(s[1..], keep); }
  }

  /** A non-empty run of kept characters followed by an ending or a dropped
      character is one whole token. */
  lemma {:induction false} RunsOfRunThenStop(t: string, rest: string, keep: char -> bool)
    requires t != [] && forall k :: 0 <= k < |t| ==> keep(t[k])
    requires rest == [] || !keep(rest[0])
    ensures Runs(t + rest, keep) == [t] + Runs(rest, keep)
  {
    TakeWhileOfRun(t, rest, keep);
    assert (t + rest)[0] == t[0];
    assert (t + rest)[|t|..] == rest;
  }

  lemma {:induction false} TakeWhileOfRun(t: string, rest: string, keep: char -> bool)
    requires forall k :: 0 <= k < |t| ==> keep(t[k])
    requires rest == [] || !keep(rest[0])
    ensures TakeWhile(t + rest, keep) == t
    decreases |t|
  {
    if t == [] {
      assert t + rest == rest;
    } else {
      assert (t + rest)[0] == t[0];
      assert (t + rest)[1..] == t[1..] + rest;
      TakeWhileOfRun(t[1..], rest, keep);
    }
  }

  /** A dropped character ends the current run (if any). */
  lemma RunsFlush(cur: string, c: char, rest: string, keep: char -> bool)
    requires forall k :: 0 <= k < |cur| ==> keep(cur[k])
    requires !keep(c)
    ensures Runs(cur + ([c] + rest), keep) == (if cur == [] then [] else [cur]) + Runs(rest, keep)
  {
    var r := [c] + rest;
    assert r[0] == c && r[1..] == rest;
    if cur == [] {
      assert cur + r == r;
    } else {
      RunsOfRunThenStop(cur, r, keep);
    }
  }

  /** The state of a left-to-right scan that builds the runs of `s`: `out`
      holds the finished runs and `cur` the run in progress before `s[i]`. */
  predicate Scanned(out: seq<string>, cur: string, s: string, i: nat, keep: char -> bool) {
    i <= |s| && (forall k :: 0 <= k < |cur| ==> keep(cur[k]))
    && out + Runs(cur + s[i..], keep) == Runs(s, keep)
  }

  lemma ScanStart(s: string, keep: char -> bool)
    ensures Scanned([], [], s, 0, keep)
  {
    assert [] + s[0..] == s;
    assert [] + Runs(s, keep) == Runs(s, keep);
  }

  /** A kept character extends the run in progress. */
  lemma ScanKeep(out: seq<string>, cur: string, s: string, i: nat, keep: char -> bool)
    requires Scanned(out, cur, s, i, keep) && i < |s| && keep(s[i])
    ensures Scanned(out, cur + [s[i]], s, i + 1, keep)
  {
    MoveFirst(cur, s, i);
  }

  /** A dropped character finishes the run in progress, if there is one. */
  lemma ScanDrop(out: seq<string>, cur: string, s: string, i: nat, keep: char -> bool)
    requires Scanned(out, cur, s, i, keep) && i < |s| && !keep(s[i])
    ensures Scanned(if cur == [] then out else out + [cur], [], s, i + 1, keep)
  {
    var c := s[i];
    MoveFirst(cur, s, i);
    assert [] + s[i + 1..] == s[i + 1..];
    RunsFlush(cur, c, s[i + 1..], keep);
    assert cur + ([c] + s[i + 1..]) == cur + s[i..];
    if cur == [] {
      assert out + ([] + Runs(s[i + 1..], keep)) == out + Runs(s[i + 1..], keep);
    } else {
      assert out + ([cur] + Runs(s[i + 1..], keep)) == (out + [cur]) + Runs(s[i + 1..], keep);
    }
  }

  /** Moving the next character of `s` onto the end of `cur`. */
  lemma MoveFirst(cur: string, s: string, i: nat)
    requires i < |s|
    ensures s[i..] == [s[i]] + s[i + 1..]
    ensures (cur + [s[i]]) + s[i + 1..] == cur + s[i..]
  {
    assert s[i..] == [s[i]] + s[i + 1..];
  }

  /** The end of the scan: the run in progress is the last run. */
  lemma ScanFinish(out: seq<string>, cur: string, s: string, keep: char -> bool)
    requires Scanned(out, cur, s, |s|, keep)
    ensures (if cur == [] then out else out + [cur]) == Runs(s, keep)
  {
    assert cur + s[|s|..] == cur;
    if cur != [] {
      RunsOfRunThenStop(cur, [], keep);
      assert cur + [] == cur;
    } else {
      assert out + [] == out;
    }
  }

  /** Go strings.Fields: the maximal runs of non-whitespace characters. */
  function Fields(s: string): seq<string> { Runs(s, NotSpace) }

  // ---------------------------------------------------------------- prefixes and substrings

  predicate HasPrefix(s: string, p: string) { |p| <= |s| && s[..|p|] == p }
  predicate HasSuffix(s: string, p: string) { |p| <= |s| && s[|s| - |p|..] == p }

  /** Go strings.TrimSuffix. */
  function TrimSuffix(s: string, p: string): (r: string)
    ensures HasSuffix(s, p) ==> r + p == s
    ensures !HasSuffix(s, p) ==> r == s
  {
    if HasSuffix(s, p) then
      var r := s[..|s| - |p|];
      assert r + p == s;
      r
    else s
  }

  /** Go strings.Contains / Python `in` on strings: `sub` occurs at some offset. */
  predicate Contains(s: string, sub: string)
    decreases |s|
  {
    HasPrefix(s, sub) || (|sub| < |s| && Contains(s[1..], sub))
  }

  /** An occurrence at offset |a| is found. */
  lemma {:induction false} ContainsAt(a: string, sub: string, b: string)
    ensures Contains(a + sub + b, sub)
    decreases |a|
  {
    if a == [] {
      assert a + sub + b == sub + b;
      assert (sub + b)[..|sub|] == sub;
    } else {
      assert (a + sub + b)[1..] == a[1..] + sub + b;
      ContainsAt(a[1..], sub, b);
    }
  }

  /** A string that lacks the first character of `sub` does not contain it. */
  lemma {:induction false} NotContainsWithoutFirst(s: string, sub: string)
    requires |sub| > 0 && sub[0] !in s
    ensures !Contains(s, sub)
    decreases |s|
  {
    if |s| > 0 {
      assert s[0] != sub[0];
      assert !HasPrefix(s, sub) by { if |sub| <= |s| { assert s[..|sub|][0] == s[0]; } }
      if |sub| < |s| { NotContainsWithoutFirst(s[1..], sub); }
    }
  }

  /** A prefix that lacks the first character of `sub` holds no occurrence. */
  lemma {:induction false} ContainsSkip(a: string, b: string, sub: string)
    requires |sub| > 0 && sub[0] !in a
    ensures Contains(a + b, sub) ==> Contains(b, sub)
    decreases |a|
  {
    if |a| > 0 {
      assert (a + b)[0] == a[0];
      assert !HasPrefix(a + b, sub) by { if |sub| <= |a + b| { assert (a + b)[..|sub|][0] == a[0]; } }
      if Contains(a + b, sub) {
        assert (a + b)[1..] == a[1..] + b;
        ContainsSkip(a[1..], b, sub);
      }
    } else {
      assert a + b == b;
    }
  }

  // ---------------------------------------------------------------- splitting and joining

  /** Go strings.Split(s, sep) for a one-character separator: always at least
      one piece, and no piece holds the separator. Each separator closes the
      piece in progress and opens a new one. */
  function Split(s: string, sep: char): (r: seq<string>)
    ensures |r| >= 1
    ensures forall i :: 0 <= i < |r| ==> sep !in r[i]
    decreases |s|
  {
    if s == [] then [[]]
    else
      var rest := Split(s[1..], sep);
      if s[0] == sep then [[]] + rest
      else [[s[0]] + rest[0]] + rest[1..]
  }

  /** Go strings.Join and Python str.join. */
  function Join(ts: seq<string>, sep: string): string
  {
    if ts == [] then []
    else if |ts| == 1 then ts[0]
    else ts[0] + sep + Join(ts[1..], sep)
  }

  /** Prepending to the first piece prepends to the joined string. */
  lemma JoinExtendFirst(a: string, ts: seq<string>, sep: string)
    requires |ts| >= 1
    ensures Join([a + ts[0]] + ts[1..], sep) == a + Join(ts, sep)
  {
    var us := [a + ts[0]] + ts[1..];
    assert us[0] == a + ts[0] && us[1..] == ts[1..];
    if |ts| > 1 {
      assert Join(us, sep) == (a + ts[0]) + sep + Join(ts[1..], sep);
      assert (a + ts[0]) + sep + Join(ts[1..], sep) == a + (ts[0] + sep + Join(ts[1..], sep));
    }
  }

  /** Joining the pieces with the separator restores the input. */
  lemma {:induction false} SplitJoin(s: string, sep: char)
    ensures Join(Split(s, sep), [sep]) == s
    decreases |s|
  {
    if s != [] {
      var rest := Split(s[1..], sep);
      SplitJoin(s[1..], sep);
      if s[0] == sep {
        var us := [[]] + rest;
        assert us[0] == [] && us[1..] == rest;
        assert Join(us, [sep]) == [] + [sep] + Join(rest, [sep]);
      } else {
        JoinExtendFirst([s[0]], rest, [sep]);
      }
      assert s == [s[0]] + s[1..];
    }
  }

  // ---------------------------------------------------------------- numbers

  /** The decimal digits of `n`, as fmt's %d prints them. */
  function NatToString(n: nat): (r: string)
    ensures r != [] && forall k :: 0 <= k < |r| ==> IsDigit(r[k])
    decreases n
  {
    var d := ['0' + (n % 10) as char];
    if n < 10 then d else NatToString(n / 10) + d
  }

  /** fmt's %d of any int: a minus sign before the digits of a negative. */
  function IntToString(i: int): string {
    if i < 0 then "-" + NatToString(-i) else NatToString(i)
  }

  // ---------------------------------------------------------------- ordering

  /** Byte-wise lexicographic order, the order of Go's sort.Strings. */
  predicate Less(a: string, b: string)
    decreases |a|
  {
    if a == [] then b != []
    else if b == [] then false
    else if a[0] != b[0] then a[0] < b[0]
    else Less(a[1..], b[1..])
  }

  lemma {:induction false} LessIrreflexive(a: string)
    ensures !Less(a, a)
    decreases |a|
  {
    if a != [] { LessIrreflexive(a[1..]); }
  }

  lemma {:induction false} LessTransitive(a: string, b: string, c: string)
    requires Less(a, b) && Less(b, c)
    ensures Less(a, c)
    decreases |a|
  {
    if a != [] && b != [] && c != [] && a[0] == b[0] && b[0] == c[0] {
      LessTransitive(a[1..], b[1..], c[1..]);
    }
  }

  lemma {:induction false} LessTotal(a: string, b: string)
    requires a != b
    ensures Less(a, b) || Less(b, a)
    decreases |a|
  {
    if a != [] && b != [] && a[0] == b[0] {
      assert a == [a[0]] + a[1..] && b == [b[0]] + b[1..];
      LessTotal(a[1..], b[1..]);
    }
  }

  predicate StrictlySorted(s: seq<string>)
  {
    forall i, j :: 0 <= i < j < |s| ==> Less(s[i], s[j])
  }
}
