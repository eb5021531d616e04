/**
 * `parse_log_message_for_vm_updates` (progress_table_ref.py): six regular
 * expressions tried in order with `re.search`; the first that matches anywhere
 * in the line decides the VM name, the status and the progress.
 *
 * The patterns use only literal text, `(\d+)` and `([^\s]+)`, so they are
 * modelled as sequences of elements, with a matcher that backtracks the way
 * Python's does: a greedy group tries its longest run first, then shorter ones.
 */
module LogParser {
  import opened Wrappers
  import opened Text
  import opened Provision

  /** A pattern element: literal text, a `(\d+)` group or a `([^\s]+)` group. */
  datatype Elem = Lit(text: string) | Digits | NonSpace

  type Pattern = seq<Elem>

  /** Whether a group element accepts the character (a literal accepts none this way). */
  predicate InClass(e: Elem, c: char)
  {
    match e
    case Lit(_) => false
    case Digits => IsDigit(c)
    case NonSpace => !IsSpace(c)
  }

  predicate NoSpace(s: string) { forall i :: 0 <= i < |s| ==> !IsSpace(s[i]) }

  /** The captured groups fit `pat[i..]`: one non-empty group per group element, made of that element's class. */
  predicate GroupsFit(pat: Pattern, i: nat, gs: seq<string>)
    requires i <= |pat|
    decreases |pat| - i
  {
    if i == |pat| then gs == []
    else if pat[i].Lit? then GroupsFit(pat, i + 1, gs)
    else gs != [] && gs[0] != [] && (forall j :: 0 <= j < |gs[0]| ==> InClass(pat[i], gs[0][j]))
         && GroupsFit(pat, i + 1, gs[1..])
  }

  /** The text a match of `pat[i..]` with these groups spans. */
  function Render(pat: Pattern, i: nat, gs: seq<string>): string
    requires i <= |pat| && GroupsFit(pat, i, gs)
    decreases |pat| - i
  {
    if i == |pat| then []
    else if pat[i].Lit? then pat[i].text + Render(pat, i + 1, gs)
    else gs[0] + Render(pat, i + 1, gs[1..])
  }

  /** Every group element is followed by literal text whose first character the group does not accept. */
  predicate WellFormed(pat: Pattern)
  {
    forall i :: 0 <= i < |pat| - 1 && !pat[i].Lit? ==>
      pat[i + 1].Lit? && pat[i + 1].text != [] && !InClass(pat[i], pat[i + 1].text[0])
  }

  /** Length of the longest run of `e`'s class starting at `p`. */
  function RunLen(e: Elem, s: string, p: nat): (k: nat)
    requires p <= |s|
    ensures p + k <= |s|
    ensures forall i :: p <= i < p + k ==> InClass(e, s[i])
    ensures p + k == |s| || !InClass(e, s[p + k])
    decreases |s| - p
  {
    if p < |s| && InClass(e, s[p]) then 1 + RunLen(e, s, p + 1) else 0
  }

  /** Match `pat[i..]` at position `p` of `s` (not anchored at the end); `MatchAtSound` says what a match means. */
  function MatchAt(pat: Pattern, i: nat, s: string, p: nat): Option<seq<string>>
    requires i <= |pat| && p <= |s|
    decreases |pat| - i, 1, 0
  {
    if i == |pat| then Some([])
    else if pat[i].Lit? then
      var t := pat[i].text;
      if t <= s[p..] then MatchAt(pat, i + 1, s, p + |t|) else None
    else
      TryRun(pat, i, s, p, RunLen(pat[i], s, p))
  }

  /** A greedy group at `p`: try a run of `k` characters, then ever shorter ones. */
  function TryRun(pat: Pattern, i: nat, s: string, p: nat, k: nat): Option<seq<string>>
    requires i < |pat| && !pat[i].Lit? && p + k <= |s|
    decreases |pat| - i, 0, k
  {
    if k == 0 then None
    else
      var rest := MatchAt(pat, i + 1, s, p + k);
      if rest.Some? then Some([s[p..p + k]] + rest.value)
      else TryRun(pat, i, s, p, k - 1)
  }

  /**
   * A match, when found, has one group per group element, each made of that
   * element's class, and spells out a prefix of `s[p..]` from its groups and
   * literals.
   */
  lemma {:induction false} MatchAtSound(pat: Pattern, i: nat, s: string, p: nat)
    requires i <= |pat| && p <= |s|
    ensures var r := MatchAt(pat, i, s, p);
      r.Some? ==> GroupsFit(pat, i, r.value) && Render(pat, i, r.value) <= s[p..]
    decreases |pat| - i, 1, 0
  {
    if i == |pat| {
    } else if pat[i].Lit? {
      var t := pat[i].text;
      if t <= s[p..] {
        MatchAtSound(pat, i + 1, s, p + |t|);
        assert s[p..] == t + s[p + |t|..];
      }
    } else {
      TryRunSound(pat, i, s, p, RunLen(pat[i], s, p));
    }
  }

  lemma {:induction false} TryRunSound(pat: Pattern, i: nat, s: string, p: nat, k: nat)
    requires i < |pat| && !pat[i].Lit? && p + k <= |s|
    requires forall j :: p <= j < p + k ==> InClass(pat[i], s[j])
    ensures var r := TryRun(pat, i, s, p, k);
      r.Some? ==> GroupsFit(pat, i, r.value) && Render(pat, i, r.value) <= s[p..]
    decreases |pat| - i, 0, k
  {
    if k > 0 {
      var rest := MatchAt(pat, i + 1, s, p + k);
      if rest.Some? {
        MatchAtSound(pat, i + 1, s, p + k);
        var g := s[p..p + k];
        var gs := [g] + rest.value;
        assert gs[0] == g && gs[1..] == rest.value;
        assert s[p..] == g + s[p + k..];
      } else {
        TryRunSound(pat, i, s, p, k - 1);
      }
    }
  }

  /** `re.search` from position `p`: the result at the first position where the pattern matches. */
  function SearchFrom(pat: Pattern, s: string, p: nat): (r: Option<seq<string>>)
    requires p <= |s| + 1
    ensures r.Some? ==> GroupsFit(pat, 0, r.value)
    decreases |s| + 1 - p
  {
    if p > |s| then None
    else
      var m := MatchAt(pat, 0, s, p);
      MatchAtSound(pat, 0, s, p);
      if m.Some? then m else SearchFrom(pat, s, p + 1)
  }

  function Search(pat: Pattern, s: string): Option<seq<string>>
  {
    SearchFrom(pat, s, 0)
  }

  /** The search fails exactly when the pattern matches at no position. */
  lemma {:induction false} SearchFromNone(pat: Pattern, s: string, p: nat)
    requires p <= |s| + 1
    ensures SearchFrom(pat, s, p).None? <==> forall q :: p <= q <= |s| ==> MatchAt(pat, 0, s, q).None?
    decreases |s| + 1 - p
  {
    if p <= |s| {
      SearchFromNone(pat, s, p + 1);
      if MatchAt(pat, 0, s, p).Some? {
        assert SearchFrom(pat, s, p) == MatchAt(pat, 0, s, p);
        assert !(forall q :: p <= q <= |s| ==> MatchAt(pat, 0, s, q).None?) by {
          assert !MatchAt(pat, 0, s, p).None?;
        }
      } else {
        assert SearchFrom(pat, s, p) == SearchFrom(pat, s, p + 1);
      }
    }
  }

  /** `re.search` reports the match at the leftmost position where there is one. */
  lemma {:induction false} SearchFirst(pat: Pattern, s: string, q: nat)
    requires q <= |s|
    requires forall r :: 0 <= r < q ==> MatchAt(pat, 0, s, r).None?
    ensures Search(pat, s) == SearchFrom(pat, s, q)
    decreases q
  {
    if q > 0 {
      SearchFirst(pat, s, q - 1);
    }
  }

  /** A pattern that starts with literal text matches nowhere that text does not occur. */
  lemma SearchMisses(pat: Pattern, s: string)
    requires pat != [] && pat[0].Lit?
    requires forall q :: 0 <= q <= |s| ==> !(pat[0].text <= s[q..])
    ensures Search(pat, s).None?
  {
    SearchFromNone(pat, s, 0);
  }

  /**
   * The matcher finds exactly the groups a line was printed with, when the
   * pattern is well formed and a trailing group is not followed by more of its
   * class.
   */
  lemma {:induction false} MatchRendered(pat: Pattern, i: nat, gs: seq<string>, s: string, p: nat)
    requires WellFormed(pat) && i <= |pat| && p <= |s|
    requires GroupsFit(pat, i, gs) && Render(pat, i, gs) <= s[p..]
    requires i < |pat| && !pat[|pat| - 1].Lit? ==>
               p + |Render(pat, i, gs)| == |s| || !InClass(pat[|pat| - 1], s[p + |Render(pat, i, gs)|])
    ensures MatchAt(pat, i, s, p) == Some(gs)
    decreases |pat| - i, 1
  {
    if i == |pat| {
    } else if pat[i].Lit? {
      var t := pat[i].text;
      LiteralStep(t, Render(pat, i + 1, gs), s, p);
      MatchRendered(pat, i + 1, gs, s, p + |t|);
    } else {
      MatchRenderedGroup(pat, i, gs, s, p);
    }
  }

  /** The group case of `MatchRendered`: the greedy run stops exactly where the group ends. */
  lemma {:induction false} MatchRenderedGroup(pat: Pattern, i: nat, gs: seq<string>, s: string, p: nat)
    requires WellFormed(pat) && i < |pat| && !pat[i].Lit? && p <= |s|
    requires GroupsFit(pat, i, gs) && Render(pat, i, gs) <= s[p..]
    requires !pat[|pat| - 1].Lit? ==>
               p + |Render(pat, i, gs)| == |s| || !InClass(pat[|pat| - 1], s[p + |Render(pat, i, gs)|])
    ensures MatchAt(pat, i, s, p) == Some(gs)
    decreases |pat| - i, 0
  {
    var g := gs[0];
    GroupEnds(pat, i, gs, s, p);
    RunLenExact(pat[i], s, p, |g|);
    RestRendered(pat, i, gs, s, p);
    MatchRendered(pat, i + 1, gs[1..], s, p + |g|);
    GroupMatch(pat, i, s, p, gs);
  }

  /** After a group, the rest of the groups fit and render the rest of the text. */
  lemma RestRendered(pat: Pattern, i: nat, gs: seq<string>, s: string, p: nat)
    requires WellFormed(pat) && i < |pat| && !pat[i].Lit? && p <= |s|
    requires GroupsFit(pat, i, gs) && Render(pat, i, gs) <= s[p..]
    requires !pat[|pat| - 1].Lit? ==>
               p + |Render(pat, i, gs)| == |s| || !InClass(pat[|pat| - 1], s[p + |Render(pat, i, gs)|])
    ensures gs != [] && gs[0] != [] && p + |gs[0]| <= |s| && s[p..p + |gs[0]|] == gs[0]
    ensures GroupsFit(pat, i + 1, gs[1..]) && Render(pat, i + 1, gs[1..]) <= s[p + |gs[0]|..]
    ensures i + 1 < |pat| && !pat[|pat| - 1].Lit? ==>
              var q := p + |gs[0]| + |Render(pat, i + 1, gs[1..])|;
              q == |s| || !InClass(pat[|pat| - 1], s[q])
  {
    assert Render(pat, i, gs) == gs[0] + Render(pat, i + 1, gs[1..]);
    GroupStep(gs[0], Render(pat, i + 1, gs[1..]), s, p);
  }

  /** A group whose text is exactly the longest run, followed by a match of the rest, gives the match. */
  lemma GroupMatch(pat: Pattern, i: nat, s: string, p: nat, gs: seq<string>)
    requires i < |pat| && !pat[i].Lit? && gs != [] && p + |gs[0]| <= |s| && gs[0] != [] && s[p..p + |gs[0]|] == gs[0]
    requires RunLen(pat[i], s, p) == |gs[0]|
    requires MatchAt(pat, i + 1, s, p + |gs[0]|) == Some(gs[1..])
    ensures MatchAt(pat, i, s, p) == Some(gs)
  {
    TryRunHit(pat, i, s, p, |gs[0]|, gs[1..]);
    MatchAtGroup(pat, i, s, p);
    assert [gs[0]] + gs[1..] == gs;
  }

  /** At a group element the matcher starts from the longest run. */
  lemma MatchAtGroup(pat: Pattern, i: nat, s: string, p: nat)
    requires i < |pat| && !pat[i].Lit? && p <= |s|
    ensures MatchAt(pat, i, s, p) == TryRun(pat, i, s, p, RunLen(pat[i], s, p))
  {
  }

  /** A greedy run of `k` characters after which the rest of the pattern matches is the match. */
  lemma TryRunHit(pat: Pattern, i: nat, s: string, p: nat, k: nat, rest: seq<string>)
    requires i < |pat| && !pat[i].Lit? && p + k <= |s| && 0 < k
    requires forall j :: p <= j < p + k ==> InClass(pat[i], s[j])
    requires MatchAt(pat, i + 1, s, p + k) == Some(rest)
    ensures TryRun(pat, i, s, p, k) == Some([s[p..p + k]] + rest)
  {
  }

  /** Where a group's text ends, the text no longer belongs to its class. */
  lemma GroupEnds(pat: Pattern, i: nat, gs: seq<string>, s: string, p: nat)
    requires WellFormed(pat) && i < |pat| && !pat[i].Lit? && p <= |s|
    requires GroupsFit(pat, i, gs) && Render(pat, i, gs) <= s[p..]
    requires !pat[|pat| - 1].Lit? ==>
               p + |Render(pat, i, gs)| == |s| || !InClass(pat[|pat| - 1], s[p + |Render(pat, i, gs)|])
    ensures p + |gs[0]| <= |s|
    ensures forall j :: p <= j < p + |gs[0]| ==> InClass(pat[i], s[j])
    ensures p + |gs[0]| == |s| || !InClass(pat[i], s[p + |gs[0]|])
  {
    var g := gs[0];
    var rest := Render(pat, i + 1, gs[1..]);
    GroupStep(g, rest, s, p);
    forall j | p <= j < p + |g| ensures InClass(pat[i], s[j]) {
      assert s[j] == g[j - p];
    }
    if i + 1 < |pat| {
      assert pat[i + 1].Lit? && pat[i + 1].text != [] && !InClass(pat[i], pat[i + 1].text[0]);
      assert rest == pat[i + 1].text + Render(pat, i + 2, gs[1..]);
      assert rest[0] == pat[i + 1].text[0];
    } else {
      assert rest == [];
    }
  }

  /** The run of a class is exactly `n` long when `n` characters belong to it and the next does not. */
  lemma {:induction false} RunLenExact(e: Elem, s: string, p: nat, n: nat)
    requires p + n <= |s|
    requires forall j :: p <= j < p + n ==> InClass(e, s[j])
    requires p + n == |s| || !InClass(e, s[p + n])
    ensures RunLen(e, s, p) == n
    decreases n
  {
    if n > 0 {
      assert InClass(e, s[p]);
      RunLenExact(e, s, p + 1, n - 1);
    }
  }

  lemma LiteralStep(t: string, rest: string, s: string, p: nat)
    requires p <= |s| && t + rest <= s[p..]
    ensures t <= s[p..] && p + |t| <= |s| && rest <= s[p + |t|..]
  {
    assert s[p + |t|..] == s[p..][|t|..];
    assert (t + rest)[|t|..] == rest;
  }

  lemma GroupStep(g: string, rest: string, s: string, p: nat)
    requires p <= |s| && g + rest <= s[p..]
    ensures p + |g| <= |s| && s[p..p + |g|] == g && rest <= s[p + |g|..]
    ensures forall j :: p <= j < p + |g| ==> s[j] == g[j - p]
    ensures rest != [] ==> s[p + |g|] == rest[0]
  {
    assert s[p..p + |g|] == s[p..][..|g|];
    assert s[p + |g|..] == s[p..][|g|..];
    assert (g + rest)[|g|..] == rest;
  }

  lemma PrefixTail(t: string, u: string)
    requires t != []
    ensures t <= u ==> t[1..] <= u[1..]
  {
    if t <= u {
      assert u[1..][..|t| - 1] == t[1..];
    }
  }

  lemma PrefixCons(a: string, t: string)
    requires a != [] && t != [] && a[0] == t[0]
    ensures a[1..] <= t[1..] ==> a <= t
  {
    if a[1..] <= t[1..] {
      assert a == [a[0]] + a[1..];
      assert t[..|a|] == [t[0]] + t[1..][..|a| - 1];
    }
  }

  /**
   * Literal text `t` whose second character is a space occurs nowhere in
   * `a + n + b` when `n` has no whitespace, `t` cannot start inside `a` or `b`,
   * and `t` without its first character does not begin `b`.
   */
  lemma {:induction false} NoOccurrence(t: string, a: string, n: string, b: string, k: nat)
    requires |t| >= 2 && t[1] == ' '
    requires NoSpace(n)
    requires a != [] ==> t[0] !in a[1..]
    requires a != [] && a[0] == t[0] ==> !(a <= t) && !(t <= a)
    requires t[0] !in b
    requires 1 <= k < |t| && (k - 1 < |b| ==> b[k - 1] != t[k])
    ensures forall q :: 0 <= q <= |a + n + b| ==> !(t <= (a + n + b)[q..])
  {
    var s := a + n + b;
    forall q | 0 <= q <= |s| ensures !(t <= s[q..]) {
      if q + |t| > |s| {
      } else if q == 0 && a != [] && a[0] == t[0] {
        var j: nat := Mismatch(a, t);
        assert s[j] == a[j];
        assert s[q..][j] != t[j];
      } else if q < |a| {
        if q > 0 {
          assert s[q] == a[1..][q - 1];
        }
        assert s[q..][0] != t[0];
      } else if q + 1 < |a| + |n| {
        assert s[q + 1] == n[q + 1 - |a|];
        assert s[q..][1] != t[1];
      } else if q < |a| + |n| {
        assert s[q..][1..] == b;
        PrefixTail(t, s[q..]);
        assert !(t[1..] <= b) by {
          if k - 1 < |b| {
            assert t[1..][k - 1] != b[k - 1];
          }
        }
      } else {
        assert s[q] == b[q - |a| - |n|] && b[q - |a| - |n|] in b;
        assert s[q..][0] != t[0];
      }
    }
  }

  /** A position where two strings, neither a prefix of the other, differ. */
  function Mismatch(a: string, t: string): (j: nat)
    requires !(a <= t) && !(t <= a)
    ensures j < |a| && j < |t| && a[j] != t[j]
  {
    if a[0] != t[0] then 0
    else
      PrefixCons(a, t);
      PrefixCons(t, a);
      1 + Mismatch(a[1..], t[1..])
  }

  const StartPat: Pattern := [Lit("🚀 Starting VM "), Digits, Lit("/"), Digits, Lit(": "), NonSpace]
  const ClonedPat: Pattern := [Lit("✅ VM "), NonSpace, Lit(" cloned successfully")]
  const PoweredPat: Pattern := [Lit("🟢 VM "), NonSpace, Lit(" powered on successfully")]
  const ReadyPat: Pattern := [Lit("✅ Guest OS boot completed - VM "), NonSpace, Lit(" ready")]
  const FailedPat: Pattern := [Lit("❌ "), NonSpace, Lit(" clone failed")]
  const ProgressPat: Pattern := [Lit("📈 Clone progress: "), Digits, Lit("% - VM "), NonSpace]

  /** The patterns in the order they are tried. */
  const PatternCount := 6

  function PatternAt(i: nat): Pattern
    requires i < PatternCount
  {
    if i == 0 then StartPat
    else if i == 1 then ClonedPat
    else if i == 2 then PoweredPat
    else if i == 3 then ReadyPat
    else if i == 4 then FailedPat
    else ProgressPat
  }

  /** What a recognised line says about one VM. */
  datatype StatusUpdate = StatusUpdate(name: string, status: string, progress: Option<nat>)

  /** A `lit (\d+) lit (\d+) lit ([^\s]+)` pattern captures two digit runs and a name. */
  lemma StartGroups(pat: Pattern, gs: seq<string>)
    requires |pat| == 6 && pat[0].Lit? && pat[1] == Digits && pat[2].Lit? && pat[3] == Digits
    requires pat[4].Lit? && pat[5] == NonSpace
    requires GroupsFit(pat, 0, gs)
    ensures |gs| == 3 && AllDigits(gs[0]) && AllDigits(gs[1]) && gs[2] != [] && NoSpace(gs[2])
  {
    assert GroupsFit(pat, 1, gs);
    var g1 := gs[1..];
    assert GroupsFit(pat, 2, g1) && GroupsFit(pat, 3, g1);
    var g2 := g1[1..];
    assert GroupsFit(pat, 4, g2) && GroupsFit(pat, 5, g2);
    assert GroupsFit(pat, 6, g2[1..]);
    assert gs == [gs[0], g1[0], g2[0]];
  }

  /** A `lit ([^\s]+) lit` pattern captures one name. */
  lemma NameGroup(pat: Pattern, gs: seq<string>)
    requires |pat| == 3 && pat[0].Lit? && pat[1] == NonSpace && pat[2].Lit?
    requires GroupsFit(pat, 0, gs)
    ensures |gs| == 1 && gs[0] != [] && NoSpace(gs[0])
  {
    assert GroupsFit(pat, 1, gs);
    assert GroupsFit(pat, 2, gs[1..]) && GroupsFit(pat, 3, gs[1..]);
  }

  /** A `lit (\d+) lit ([^\s]+)` pattern captures a digit run and a name. */
  lemma ProgressGroups(pat: Pattern, gs: seq<string>)
    requires |pat| == 4 && pat[0].Lit? && pat[1] == Digits && pat[2].Lit? && pat[3] == NonSpace
    requires GroupsFit(pat, 0, gs)
    ensures |gs| == 2 && AllDigits(gs[0]) && gs[1] != [] && NoSpace(gs[1])
  {
    assert GroupsFit(pat, 1, gs);
    var g1 := gs[1..];
    assert GroupsFit(pat, 2, g1) && GroupsFit(pat, 3, g1);
    assert GroupsFit(pat, 4, g1[1..]);
    assert gs == [gs[0], g1[0]];
  }

  /** The groups each pattern captures: where the name is, and which groups hold digits. */
  lemma PatternGroups(i: nat, gs: seq<string>)
    requires i < PatternCount && GroupsFit(PatternAt(i), 0, gs)
    ensures i == 0 ==> |gs| == 3 && AllDigits(gs[0]) && AllDigits(gs[1]) && gs[2] != [] && NoSpace(gs[2])
    ensures 1 <= i <= 4 ==> |gs| == 1 && gs[0] != [] && NoSpace(gs[0])
    ensures i == 5 ==> |gs| == 2 && AllDigits(gs[0]) && gs[1] != [] && NoSpace(gs[1])
  {
    if i == 0 {
      StartGroups(StartPat, gs);
    } else if i == 1 {
      NameGroup(ClonedPat, gs);
    } else if i == 2 {
      NameGroup(PoweredPat, gs);
    } else if i == 3 {
      NameGroup(ReadyPat, gs);
    } else if i == 4 {
      NameGroup(FailedPat, gs);
    } else {
      ProgressGroups(ProgressPat, gs);
    }
  }

  /** The update a match of pattern `i` yields, as the branches on the pattern text decide. */
  function Classify(i: nat, gs: seq<string>): (u: StatusUpdate)
    requires i < PatternCount && GroupsFit(PatternAt(i), 0, gs)
    ensures u.name != [] && NoSpace(u.name)
    ensures u.status == "provisioning" <==> i == 0 || i == 5
    ensures u.status == "success" <==> 1 <= i <= 3
    ensures u.status == "failed" <==> i == 4
    ensures u.progress.None? <==> i == 4
  {
    PatternGroups(i, gs);
    if i == 5 then StatusUpdate(gs[1], "provisioning", Some(DigitsValue(gs[0])))
    else if i == 4 then StatusUpdate(gs[0], "failed", None)
    else if i >= 1 then StatusUpdate(gs[0], "success", Some(100))
    else StatusUpdate(gs[2], "provisioning", Some(0))
  }

  /** One pattern applied as `re.search` does, or, when `anchored`, only at the start of the line. */
  function Find(pat: Pattern, s: string, anchored: bool): (r: Option<seq<string>>)
    ensures r.Some? ==> GroupsFit(pat, 0, r.value)
  {
    MatchAtSound(pat, 0, s, 0);
    if anchored then MatchAt(pat, 0, s, 0) else Search(pat, s)
  }

  /** Try the patterns from index `i` on, first match wins. */
  function ParseFrom(message: string, i: nat, anchored: bool): (r: Option<StatusUpdate>)
    requires i <= PatternCount
    ensures r.None? <==> forall j :: i <= j < PatternCount ==> Find(PatternAt(j), message, anchored).None?
    decreases PatternCount - i
  {
    if i == PatternCount then None
    else
      var m := Find(PatternAt(i), message, anchored);
      if m.Some? then Some(Classify(i, m.value)) else ParseFrom(message, i + 1, anchored)
  }

  /** `parse_log_message_for_vm_updates`: None stands for `(None, None, None)`. */
  function ParseLogMessage(message: string): Option<StatusUpdate>
  {
    ParseFrom(message, 0, false)
  }

  /** The same parser with every pattern anchored at the start of the line. */
  function ParseLogMessageAnchored(message: string): Option<StatusUpdate>
  {
    ParseFrom(message, 0, true)
  }

  /** Every pattern is well formed: each group is followed by literal text it cannot swallow. */
  lemma PatternsWellFormed()
    ensures WellFormed(StartPat) && WellFormed(ClonedPat) && WellFormed(PoweredPat)
    ensures WellFormed(ReadyPat) && WellFormed(FailedPat) && WellFormed(ProgressPat)
  {
    NameThenSpace(ClonedPat);
    NameThenSpace(PoweredPat);
    NameThenSpace(ReadyPat);
    NameThenSpace(FailedPat);
    StartWellFormed();
    ProgressWellFormed();
  }

  lemma StartWellFormed()
    ensures WellFormed(StartPat)
  {
    assert StartPat[2].text[0] == '/' && StartPat[4].text[0] == ':';
  }

  lemma ProgressWellFormed()
    ensures WellFormed(ProgressPat)
  {
    assert ProgressPat[2].text[0] == '%';
  }

  lemma NameThenSpace(pat: Pattern)
    requires |pat| == 3 && pat[0].Lit? && pat[1] == NonSpace && pat[2].Lit?
    requires pat[2].text != [] && pat[2].text[0] == ' '
    ensures WellFormed(pat)
  {
  }

  /** A pattern whose rendering begins the line matches there, searched or anchored. */
  lemma MatchesLine(pat: Pattern, gs: seq<string>, s: string)
    requires WellFormed(pat) && GroupsFit(pat, 0, gs) && Render(pat, 0, gs) <= s
    requires pat != [] && !pat[|pat| - 1].Lit? ==>
               |Render(pat, 0, gs)| == |s| || !InClass(pat[|pat| - 1], s[|Render(pat, 0, gs)|])
    ensures Find(pat, s, false) == Some(gs) && Find(pat, s, true) == Some(gs)
  {
    assert s[0..] == s;
    MatchRendered(pat, 0, gs, s, 0);
  }

  /** A pattern whose leading text occurs nowhere in the line matches nowhere. */
  lemma Absent(pat: Pattern, s: string)
    requires pat != [] && pat[0].Lit?
    requires forall q :: 0 <= q <= |s| ==> !(pat[0].text <= s[q..])
    ensures Find(pat, s, false).None? && Find(pat, s, true).None?
  {
    SearchMisses(pat, s);
    assert !(pat[0].text <= s[0..]);
  }

  /** The first pattern that matches decides the update. */
  lemma {:induction false} ParseSkips(s: string, i: nat, k: nat, anchored: bool)
    requires i <= k < PatternCount
    requires forall j :: i <= j < k ==> Find(PatternAt(j), s, anchored).None?
    requires Find(PatternAt(k), s, anchored).Some?
    ensures ParseFrom(s, i, anchored) == Some(Classify(k, Find(PatternAt(k), s, anchored).value))
    decreases k - i
  {
    if i < k {
      ParseSkips(s, i + 1, k, anchored);
    }
  }

  /** A pattern that finds nothing passes the line on to the next. */
  lemma Skip(s: string, i: nat, anchored: bool)
    requires i < PatternCount && Find(PatternAt(i), s, anchored).None?
    ensures ParseFrom(s, i, anchored) == ParseFrom(s, i + 1, anchored)
  {
  }

  /** A pattern that finds its groups decides the update. */
  lemma Hit(s: string, i: nat, anchored: bool)
    requires i < PatternCount && Find(PatternAt(i), s, anchored).Some?
    ensures ParseFrom(s, i, anchored) == Some(Classify(i, Find(PatternAt(i), s, anchored).value))
  {
  }

  /** With the earlier patterns missing, the update comes from pattern `k`, searched or anchored. */
  lemma Found(s: string, k: nat, gs: seq<string>)
    requires k < PatternCount
    requires forall j :: 0 <= j < k ==> Find(PatternAt(j), s, false).None? && Find(PatternAt(j), s, true).None?
    requires Find(PatternAt(k), s, false) == Some(gs) && Find(PatternAt(k), s, true) == Some(gs)
    ensures GroupsFit(PatternAt(k), 0, gs)
    ensures ParseLogMessage(s) == Some(Classify(k, gs)) && ParseLogMessageAnchored(s) == Some(Classify(k, gs))
  {
    ParseSkips(s, 0, k, false);
    ParseSkips(s, 0, k, true);
  }

  lemma StartRender(a: string, b: string, name: string)
    requires a != [] && AllDigits(a) && b != [] && AllDigits(b) && name != [] && NoSpace(name)
    ensures GroupsFit(StartPat, 0, [a, b, name])
    ensures Render(StartPat, 0, [a, b, name]) == "🚀 Starting VM " + a + "/" + b + ": " + name
  {
    var pat := StartPat;
    assert [a, b, name][1..] == [b, name] && [b, name][1..] == [name] && [name][1..] == [];
    assert Render(pat, 5, [name]) == name;
    assert Render(pat, 4, [name]) == ": " + name;
    assert Render(pat, 3, [b, name]) == b + ": " + name;
    assert Render(pat, 2, [b, name]) == "/" + b + ": " + name;
    assert Render(pat, 1, [a, b, name]) == a + "/" + b + ": " + name;
  }

  lemma NameRender(pat: Pattern, name: string)
    requires |pat| == 3 && pat[0].Lit? && pat[1] == NonSpace && pat[2].Lit?
    requires name != [] && NoSpace(name)
    ensures GroupsFit(pat, 0, [name])
    ensures Render(pat, 0, [name]) == pat[0].text + name + pat[2].text
  {
    assert [name][1..] == [];
    assert Render(pat, 2, []) == pat[2].text;
    assert Render(pat, 1, [name]) == name + pat[2].text;
  }

  lemma ProgressRender(a: string, name: string)
    requires a != [] && AllDigits(a) && name != [] && NoSpace(name)
    ensures GroupsFit(ProgressPat, 0, [a, name])
    ensures Render(ProgressPat, 0, [a, name]) == "📈 Clone progress: " + a + "% - VM " + name
  {
    var pat := ProgressPat;
    assert [a, name][1..] == [name] && [name][1..] == [];
    assert Render(pat, 3, [name]) == name;
    assert Render(pat, 2, [name]) == "% - VM " + name;
    assert Render(pat, 1, [a, name]) == a + "% - VM " + name;
  }

  /** A "Starting VM" line puts its VM into provisioning at 0%. */
  lemma StartLineParses(idx: nat, n: nat, name: string)
    requires name != [] && NoSpace(name)
    ensures ParseLogMessage(StartLine(idx, n, name)) == Some(StatusUpdate(name, "provisioning", Some(0)))
    ensures ParseLogMessageAnchored(StartLine(idx, n, name)) == Some(StatusUpdate(name, "provisioning", Some(0)))
  {
    var s := StartLine(idx, n, name);
    var gs := [Show(idx), Show(n), name];
    StartRender(Show(idx), Show(n), name);
    PatternsWellFormed();
    MatchesLine(StartPat, gs, s);
    ParseSkips(s, 0, 0, false);
    ParseSkips(s, 0, 0, true);
  }

  /**
   * A pattern whose leading text is `c`, a space and `x` matches nowhere in
   * `a + n + b` when `c` occurs only at the head of `a`, `n` has no whitespace
   * and `b` neither holds `c` nor continues with a space and `x`.
   */
  lemma HeadMisses(pat: Pattern, c: char, x: char, a: string, n: string, b: string)
    requires pat != [] && pat[0].Lit? && |pat[0].text| >= 3
    requires pat[0].text[0] == c && pat[0].text[1] == ' ' && pat[0].text[2] == x
    requires NoSpace(n) && a != [] && c !in a[1..] && c !in b
    requires a[0] == c ==> |a| >= 3 && a[2] != x
    requires |b| >= 2 ==> b[1] != x
    ensures Find(pat, a + n + b, false).None? && Find(pat, a + n + b, true).None?
  {
    var t := pat[0].text;
    if a[0] == c {
      assert !(a <= t) && !(t <= a) by {
        assert a[2] != t[2];
      }
    }
    NoOccurrence(t, a, n, b, 2);
    Absent(pat, a + n + b);
  }

  /** A line that begins with `pat`'s text around a name matches `pat` with that name. */
  lemma NameLineMatches(pat: Pattern, name: string, s: string)
    requires |pat| == 3 && pat[0].Lit? && pat[1] == NonSpace && pat[2].Lit?
    requires pat[2].text != [] && pat[2].text[0] == ' '
    requires name != [] && NoSpace(name)
    requires pat[0].text + name + pat[2].text <= s
    ensures Find(pat, s, false) == Some([name]) && Find(pat, s, true) == Some([name])
  {
    NameRender(pat, name);
    NameThenSpace(pat);
    MatchesLine(pat, [name], s);
  }

  /** "Starting VM" text occurs nowhere in `a + n + b` when `a` and `b` lack its emoji. */
  lemma StartAbsent(a: string, n: string, b: string)
    requires NoSpace(n) && a != [] && '🚀' !in a && '🚀' !in b && (|b| >= 2 ==> b[1] != 'S')
    ensures Find(StartPat, a + n + b, false).None? && Find(StartPat, a + n + b, true).None?
  {
    assert StartPat[0].text[..3] == "🚀 S";
    HeadMisses(StartPat, '🚀', 'S', a, n, b);
  }

  /** "VM ... cloned successfully" text occurs nowhere in `a + n + b` when `✅` heads at most `a`, and not this text. */
  lemma ClonedAbsent(a: string, n: string, b: string)
    requires NoSpace(n) && a != [] && '✅' !in a[1..] && '✅' !in b && (|b| >= 2 ==> b[1] != 'V')
    requires a[0] == '✅' ==> |a| >= 3 && a[2] != 'V'
    ensures Find(ClonedPat, a + n + b, false).None? && Find(ClonedPat, a + n + b, true).None?
  {
    assert ClonedPat[0].text[..3] == "✅ V";
    HeadMisses(ClonedPat, '✅', 'V', a, n, b);
  }

  lemma PoweredAbsent(a: string, n: string, b: string)
    requires NoSpace(n) && a != [] && '🟢' !in a && '🟢' !in b && (|b| >= 2 ==> b[1] != 'V')
    ensures Find(PoweredPat, a + n + b, false).None? && Find(PoweredPat, a + n + b, true).None?
  {
    assert PoweredPat[0].text[..3] == "🟢 V";
    HeadMisses(PoweredPat, '🟢', 'V', a, n, b);
  }

  lemma ReadyAbsent(a: string, n: string, b: string)
    requires NoSpace(n) && a != [] && '✅' !in a && '✅' !in b && (|b| >= 2 ==> b[1] != 'G')
    ensures Find(ReadyPat, a + n + b, false).None? && Find(ReadyPat, a + n + b, true).None?
  {
    assert ReadyPat[0].text[..3] == "✅ G";
    HeadMisses(ReadyPat, '✅', 'G', a, n, b);
  }

  /** With the "Starting VM" pattern missing, a "cloned" match decides the update. */
  lemma FoundCloned(s: string, name: string)
    requires Find(StartPat, s, false).None? && Find(StartPat, s, true).None?
    requires Find(ClonedPat, s, false) == Some([name]) && Find(ClonedPat, s, true) == Some([name])
    ensures ParseLogMessage(s) == Some(StatusUpdate(name, "success", Some(100)))
    ensures ParseLogMessageAnchored(s) == Some(StatusUpdate(name, "success", Some(100)))
  {
    Found(s, 1, [name]);
  }

  lemma FoundPowered(s: string, name: string)
    requires Find(StartPat, s, false).None? && Find(StartPat, s, true).None?
    requires Find(ClonedPat, s, false).None? && Find(ClonedPat, s, true).None?
    requires Find(PoweredPat, s, false) == Some([name]) && Find(PoweredPat, s, true) == Some([name])
    ensures ParseLogMessage(s) == Some(StatusUpdate(name, "success", Some(100)))
    ensures ParseLogMessageAnchored(s) == Some(StatusUpdate(name, "success", Some(100)))
  {
    Found(s, 2, [name]);
  }

  lemma FoundReady(s: string, name: string)
    requires Find(StartPat, s, false).None? && Find(StartPat, s, true).None?
    requires Find(ClonedPat, s, false).None? && Find(ClonedPat, s, true).None?
    requires Find(PoweredPat, s, false).None? && Find(PoweredPat, s, true).None?
    requires Find(ReadyPat, s, false) == Some([name]) && Find(ReadyPat, s, true) == Some([name])
    ensures ParseLogMessage(s) == Some(StatusUpdate(name, "success", Some(100)))
    ensures ParseLogMessageAnchored(s) == Some(StatusUpdate(name, "success", Some(100)))
  {
    Found(s, 3, [name]);
  }

  lemma FoundFailed(s: string, name: string, anchored: bool)
    requires Find(StartPat, s, anchored).None? && Find(ClonedPat, s, anchored).None?
    requires Find(PoweredPat, s, anchored).None? && Find(ReadyPat, s, anchored).None?
    requires Find(FailedPat, s, anchored) == Some([name])
    ensures ParseFrom(s, 0, anchored) == Some(StatusUpdate(name, "failed", None))
  {
    Skip(s, 0, anchored);
    Skip(s, 1, anchored);
    Skip(s, 2, anchored);
    Skip(s, 3, anchored);
    Hit(s, 4, anchored);
  }

  lemma FoundProgress(s: string, digits: string, name: string)
    requires Find(StartPat, s, false).None? && Find(StartPat, s, true).None?
    requires Find(ClonedPat, s, false).None? && Find(ClonedPat, s, true).None?
    requires Find(PoweredPat, s, false).None? && Find(PoweredPat, s, true).None?
    requires Find(ReadyPat, s, false).None? && Find(ReadyPat, s, true).None?
    requires Find(FailedPat, s, false).None? && Find(FailedPat, s, true).None?
    requires Find(ProgressPat, s, false) == Some([digits, name]) && Find(ProgressPat, s, true) == Some([digits, name])
    ensures AllDigits(digits)
    ensures ParseLogMessage(s) == Some(StatusUpdate(name, "provisioning", Some(DigitsValue(digits))))
    ensures ParseLogMessageAnchored(s) == Some(StatusUpdate(name, "provisioning", Some(DigitsValue(digits))))
  {
    ProgressGroups(ProgressPat, [digits, name]);
    ProgressFrom(s, digits, name, false);
    ProgressFrom(s, digits, name, true);
  }

  lemma ProgressFrom(s: string, digits: string, name: string, anchored: bool)
    requires Find(StartPat, s, anchored).None? && Find(ClonedPat, s, anchored).None?
    requires Find(PoweredPat, s, anchored).None? && Find(ReadyPat, s, anchored).None?
    requires Find(FailedPat, s, anchored).None?
    requires Find(ProgressPat, s, anchored) == Some([digits, name])
    ensures ParseFrom(s, 0, anchored) == Some(Classify(5, [digits, name]))
  {
    Skip(s, 0, anchored);
    Skip(s, 1, anchored);
    Skip(s, 2, anchored);
    Skip(s, 3, anchored);
    Skip(s, 4, anchored);
    Hit(s, 5, anchored);
  }

  // Each fact about one printed line gets its own lemma: the matcher unfolds
  // over the literal text, and several such facts together are costly.

  lemma ClonedLineSkipsStart(name: string)
    requires name != [] && NoSpace(name)
    ensures Find(StartPat, ClonedLine(name), false).None? && Find(StartPat, ClonedLine(name), true).None?
  {
    StartAbsent("✅ VM ", name, " cloned successfully");
  }

  lemma ClonedLineMatches(name: string)
    requires name != [] && NoSpace(name)
    ensures Find(ClonedPat, ClonedLine(name), false) == Some([name]) && Find(ClonedPat, ClonedLine(name), true) == Some([name])
  {
    NameLineMatches(ClonedPat, name, ClonedLine(name));
  }

  /** A "cloned successfully" line marks its VM a success at 100%. */
  lemma ClonedLineParses(name: string)
    requires name != [] && NoSpace(name)
    ensures ParseLogMessage(ClonedLine(name)) == Some(StatusUpdate(name, "success", Some(100)))
    ensures ParseLogMessageAnchored(ClonedLine(name)) == Some(StatusUpdate(name, "success", Some(100)))
  {
    ClonedLineSkipsStart(name);
    ClonedLineMatches(name);
    FoundCloned(ClonedLine(name), name);
  }

  lemma PoweredLineSkipsStart(name: string)
    requires name != [] && NoSpace(name)
    ensures Find(StartPat, PoweredLine(name), false).None? && Find(StartPat, PoweredLine(name), true).None?
  {
    StartAbsent("🟢 VM ", name, " powered on successfully");
  }

  lemma PoweredLineSkipsCloned(name: string)
    requires name != [] && NoSpace(name)
    ensures Find(ClonedPat, PoweredLine(name), false).None? && Find(ClonedPat, PoweredLine(name), true).None?
  {
    ClonedAbsent("🟢 VM ", name, " powered on successfully");
  }

  lemma PoweredLineMatches(name: string)
    requires name != [] && NoSpace(name)
    ensures Find(PoweredPat, PoweredLine(name), false) == Some([name]) && Find(PoweredPat, PoweredLine(name), true) == Some([name])
  {
    NameLineMatches(PoweredPat, name, PoweredLine(name));
  }

  /** A "powered on successfully" line marks its VM a success at 100%. */
  lemma PoweredLineParses(name: string)
    requires name != [] && NoSpace(name)
    ensures ParseLogMessage(PoweredLine(name)) == Some(StatusUpdate(name, "success", Some(100)))
    ensures ParseLogMessageAnchored(PoweredLine(name)) == Some(StatusUpdate(name, "success", Some(100)))
  {
    PoweredLineSkipsStart(name);
    PoweredLineSkipsCloned(name);
    PoweredLineMatches(name);
    FoundPowered(PoweredLine(name), name);
  }

  lemma ReadyLineSkipsStart(name: string)
    requires name != [] && NoSpace(name)
    ensures Find(StartPat, ReadyLine(name), false).None? && Find(StartPat, ReadyLine(name), true).None?
  {
    StartAbsent("✅ Guest OS boot completed - VM ", name, " ready");
  }

  lemma ReadyLineSkipsCloned(name: string)
    requires name != [] && NoSpace(name)
    ensures Find(ClonedPat, ReadyLine(name), false).None? && Find(ClonedPat, ReadyLine(name), true).None?
  {
    var a := "✅ Guest OS boot completed - VM ";
    assert a[1..] == " Guest OS boot completed - VM ";
    ClonedAbsent(a, name, " ready");
  }

  lemma ReadyLineSkipsPowered(name: string)
    requires name != [] && NoSpace(name)
    ensures Find(PoweredPat, ReadyLine(name), false).None? && Find(PoweredPat, ReadyLine(name), true).None?
  {
    PoweredAbsent("✅ Guest OS boot completed - VM ", name, " ready");
  }

  lemma ReadyLineMatches(name: string)
    requires name != [] && NoSpace(name)
    ensures Find(ReadyPat, ReadyLine(name), false) == Some([name]) && Find(ReadyPat, ReadyLine(name), true) == Some([name])
  {
    NameLineMatches(ReadyPat, name, ReadyLine(name));
  }

  /** A "Guest OS boot completed" line marks its VM a success at 100%. */
  lemma ReadyLineParses(name: string)
    requires name != [] && NoSpace(name)
    ensures ParseLogMessage(ReadyLine(name)) == Some(StatusUpdate(name, "success", Some(100)))
    ensures ParseLogMessageAnchored(ReadyLine(name)) == Some(StatusUpdate(name, "success", Some(100)))
  {
    ReadyLineSkipsStart(name);
    ReadyLineSkipsCloned(name);
    ReadyLineSkipsPowered(name);
    ReadyLineMatches(name);
    FoundReady(ReadyLine(name), name);
  }

  lemma FailedAbsent(a: string, n: string, b: string)
    requires NoSpace(n) && a != [] && '❌' !in a && '❌' !in b && (b != [] ==> b[0] != ' ')
    ensures Find(FailedPat, a + n + b, false).None? && Find(FailedPat, a + n + b, true).None?
  {
    var t := FailedPat[0].text;
    assert t == "❌ ";
    NoOccurrence(t, a, n, b, 1);
    Absent(FailedPat, a + n + b);
  }

  lemma FailedLineSkipsStart(name: string, msg: string)
    requires NoSpace(name) && '🚀' !in msg
    ensures Find(StartPat, CloneFailedLine(name, msg), false).None? && Find(StartPat, CloneFailedLine(name, msg), true).None?
  {
    assert CloneFailedLine(name, msg) == "❌ " + name + (" clone failed: " + msg);
    StartAbsent("❌ ", name, " clone failed: " + msg);
  }

  lemma FailedLineSkipsCloned(name: string, msg: string)
    requires NoSpace(name) && '✅' !in msg
    ensures Find(ClonedPat, CloneFailedLine(name, msg), false).None? && Find(ClonedPat, CloneFailedLine(name, msg), true).None?
  {
    assert CloneFailedLine(name, msg) == "❌ " + name + (" clone failed: " + msg);
    ClonedAbsent("❌ ", name, " clone failed: " + msg);
  }

  lemma FailedLineSkipsPowered(name: string, msg: string)
    requires NoSpace(name) && '🟢' !in msg
    ensures Find(PoweredPat, CloneFailedLine(name, msg), false).None? && Find(PoweredPat, CloneFailedLine(name, msg), true).None?
  {
    assert CloneFailedLine(name, msg) == "❌ " + name + (" clone failed: " + msg);
    PoweredAbsent("❌ ", name, " clone failed: " + msg);
  }

  lemma FailedLineSkipsReady(name: string, msg: string)
    requires NoSpace(name) && '✅' !in msg
    ensures Find(ReadyPat, CloneFailedLine(name, msg), false).None? && Find(ReadyPat, CloneFailedLine(name, msg), true).None?
  {
    assert CloneFailedLine(name, msg) == "❌ " + name + (" clone failed: " + msg);
    ReadyAbsent("❌ ", name, " clone failed: " + msg);
  }

  lemma FailedLineMatches(name: string, msg: string)
    requires name != [] && NoSpace(name)
    ensures Find(FailedPat, CloneFailedLine(name, msg), false) == Some([name])
    ensures Find(FailedPat, CloneFailedLine(name, msg), true) == Some([name])
  {
    var s := CloneFailedLine(name, msg);
    assert s == "❌ " + name + " clone failed" + (": " + msg);
    NameLineMatches(FailedPat, name, s);
  }

  /**
   * A "clone failed" line marks its VM failed, with the progress left alone,
   * provided the error text quotes none of the emoji that open the earlier
   * patterns.
   */
  lemma FailedLineParses(name: string, msg: string)
    requires name != [] && NoSpace(name)
    requires '🚀' !in msg && '✅' !in msg && '🟢' !in msg
    ensures ParseLogMessage(CloneFailedLine(name, msg)) == Some(StatusUpdate(name, "failed", None))
  {
    FailedLineSkipsStart(name, msg);
    FailedLineSkipsCloned(name, msg);
    FailedLineSkipsPowered(name, msg);
    FailedLineSkipsReady(name, msg);
    FailedLineMatches(name, msg);
    FoundFailed(CloneFailedLine(name, msg), name, false);
  }

  /** Anchored at the start of the line, a pattern whose first character differs finds nothing. */
  lemma AnchoredMiss(pat: Pattern, s: string)
    requires pat != [] && pat[0].Lit? && pat[0].text != [] && s != [] && s[0] != pat[0].text[0]
    ensures Find(pat, s, true).None?
  {
  }

  /** Anchored at the start of the line, a "clone failed" line marks its VM failed whatever its error text. */
  lemma FailedLineParsesAnchored(name: string, msg: string)
    requires name != [] && NoSpace(name)
    ensures ParseLogMessageAnchored(CloneFailedLine(name, msg)) == Some(StatusUpdate(name, "failed", None))
  {
    var s := CloneFailedLine(name, msg);
    assert s[0] == '❌';
    AnchoredMiss(StartPat, s);
    AnchoredMiss(ClonedPat, s);
    AnchoredMiss(PoweredPat, s);
    AnchoredMiss(ReadyPat, s);
    FailedLineMatches(name, msg);
    FoundFailed(s, name, true);
  }

  lemma ProgressLineSkipsStart(pct: nat, name: string)
    requires NoSpace(name)
    ensures Find(StartPat, ProgressLine(pct, name), false).None? && Find(StartPat, ProgressLine(pct, name), true).None?
  {
    var a := "📈 Clone progress: " + Show(pct) + "% - VM ";
    NotInDigits('🚀', Show(pct));
    assert ProgressLine(pct, name) == a + name + "";
    StartAbsent(a, name, "");
  }

  lemma ProgressLineSkipsCloned(pct: nat, name: string)
    requires NoSpace(name)
    ensures Find(ClonedPat, ProgressLine(pct, name), false).None? && Find(ClonedPat, ProgressLine(pct, name), true).None?
  {
    var a := "📈 Clone progress: " + Show(pct) + "% - VM ";
    NotInDigits('✅', Show(pct));
    assert ProgressLine(pct, name) == a + name + "";
    ClonedAbsent(a, name, "");
  }

  lemma ProgressLineSkipsPowered(pct: nat, name: string)
    requires NoSpace(name)
    ensures Find(PoweredPat, ProgressLine(pct, name), false).None? && Find(PoweredPat, ProgressLine(pct, name), true).None?
  {
    var a := "📈 Clone progress: " + Show(pct) + "% - VM ";
    NotInDigits('🟢', Show(pct));
    assert ProgressLine(pct, name) == a + name + "";
    PoweredAbsent(a, name, "");
  }

  lemma ProgressLineSkipsReady(pct: nat, name: string)
    requires NoSpace(name)
    ensures Find(ReadyPat, ProgressLine(pct, name), false).None? && Find(ReadyPat, ProgressLine(pct, name), true).None?
  {
    var a := "📈 Clone progress: " + Show(pct) + "% - VM ";
    NotInDigits('✅', Show(pct));
    assert ProgressLine(pct, name) == a + name + "";
    ReadyAbsent(a, name, "");
  }

  lemma ProgressLineSkipsFailed(pct: nat, name: string)
    requires NoSpace(name)
    ensures Find(FailedPat, ProgressLine(pct, name), false).None? && Find(FailedPat, ProgressLine(pct, name), true).None?
  {
    var a := "📈 Clone progress: " + Show(pct) + "% - VM ";
    NotInDigits('❌', Show(pct));
    assert ProgressLine(pct, name) == a + name + "";
    FailedAbsent(a, name, "");
  }

  lemma ProgressLineMatches(pct: nat, name: string)
    requires name != [] && NoSpace(name)
    ensures Find(ProgressPat, ProgressLine(pct, name), false) == Some([Show(pct), name])
    ensures Find(ProgressPat, ProgressLine(pct, name), true) == Some([Show(pct), name])
  {
    ProgressRender(Show(pct), name);
    PatternsWellFormed();
    MatchesLine(ProgressPat, [Show(pct), name], ProgressLine(pct, name));
  }

  /** A "Clone progress" line puts its VM into provisioning at the printed percentage. */
  lemma ProgressLineParses(pct: nat, name: string)
    requires name != [] && NoSpace(name)
    ensures ParseLogMessage(ProgressLine(pct, name)) == Some(StatusUpdate(name, "provisioning", Some(pct)))
    ensures ParseLogMessageAnchored(ProgressLine(pct, name)) == Some(StatusUpdate(name, "provisioning", Some(pct)))
  {
    ProgressLineSkipsStart(pct, name);
    ProgressLineSkipsCloned(pct, name);
    ProgressLineSkipsPowered(pct, name);
    ProgressLineSkipsReady(pct, name);
    ProgressLineSkipsFailed(pct, name);
    ProgressLineMatches(pct, name);
    FoundProgress(ProgressLine(pct, name), Show(pct), name);
  }

  lemma NotInDigits(c: char, d: string)
    requires AllDigits(d) && !IsDigit(c)
    ensures c !in d
  {
  }

  /** A "cloned successfully" line quoted after text free of its emoji is found where the quote begins. */
  lemma QuotedClonedFound(pre: string, other: string)
    requires '✅' !in pre && other != [] && NoSpace(other)
    ensures Find(ClonedPat, pre + ClonedLine(other), false) == Some([other])
  {
    var s := pre + ClonedLine(other);
    forall r | 0 <= r < |pre| ensures MatchAt(ClonedPat, 0, s, r).None? {
      assert s[r] == pre[r];
      assert s[r..][0] != ClonedPat[0].text[0];
    }
    SearchFirst(ClonedPat, s, |pre|);
    assert s[|pre|..] == ClonedLine(other);
    NameRender(ClonedPat, other);
    PatternsWellFormed();
    MatchRendered(ClonedPat, 0, [other], s, |pre|);
  }

  /**
   * As written, every pattern is searched anywhere in the line, so a "clone
   * failed" line whose error text quotes a "cloned successfully" line reads as
   * a success of the quoted VM; anchored at the start of the line it reads as
   * the failure it reports.
   */
  lemma FailedLineQuotingSuccessMisread(name: string, other: string)
    requires name != [] && NoSpace(name) && '✅' !in name
    requires other != [] && NoSpace(other) && '🚀' !in other
    ensures ParseLogMessage(CloneFailedLine(name, ClonedLine(other))) == Some(StatusUpdate(other, "success", Some(100)))
    ensures ParseLogMessageAnchored(CloneFailedLine(name, ClonedLine(other))) == Some(StatusUpdate(name, "failed", None))
  {
    QuotedSuccessSearched(name, other);
    FailedLineParsesAnchored(name, ClonedLine(other));
  }

  /** The searching parser finds the quoted success line inside the failure line. */
  lemma QuotedSuccessSearched(name: string, other: string)
    requires NoSpace(name) && '✅' !in name
    requires other != [] && NoSpace(other) && '🚀' !in other
    ensures ParseLogMessage(CloneFailedLine(name, ClonedLine(other))) == Some(StatusUpdate(other, "success", Some(100)))
  {
    var msg := ClonedLine(other);
    var s := CloneFailedLine(name, msg);
    assert Find(StartPat, s, false).None? by {
      FailedLineSkipsStart(name, msg);
    }
    QuotedClonedInFailed(name, other);
    ClonedDecides(s, [other]);
  }

  /** The cloned pattern finds the quoted VM's name inside a clone-failure line. */
  lemma QuotedClonedInFailed(name: string, other: string)
    requires '✅' !in name && other != [] && NoSpace(other)
    ensures Find(ClonedPat, CloneFailedLine(name, ClonedLine(other)), false) == Some([other])
  {
    var pre := "❌ " + name + " clone failed: ";
    assert '✅' !in pre;
    assert CloneFailedLine(name, ClonedLine(other)) == pre + ClonedLine(other);
    QuotedClonedFound(pre, other);
  }

  /** A line where the start pattern finds nothing and the cloned pattern finds a name is a success. */
  lemma ClonedDecides(s: string, gs: seq<string>)
    requires Find(StartPat, s, false).None? && Find(ClonedPat, s, false) == Some(gs)
    ensures |gs| == 1 && ParseLogMessage(s) == Some(StatusUpdate(gs[0], "success", Some(100)))
  {
    Skip(s, 0, false);
    Hit(s, 1, false);
  }

  /** A pattern whose first character is absent from the line finds nothing there. */
  lemma HeadCharAbsent(pat: Pattern, s: string)
    requires pat != [] && pat[0].Lit? && pat[0].text != [] && pat[0].text[0] !in s
    ensures Find(pat, s, false).None? && Find(pat, s, true).None?
  {
    forall q | 0 <= q <= |s| ensures !(pat[0].text <= s[q..]) {
      if q < |s| {
        assert s[q..][0] == s[q];
      }
    }
    Absent(pat, s);
  }

  /** A line carrying none of the patterns' opening emoji changes no VM's status. */
  lemma UnmarkedLineIgnored(s: string)
    requires '🚀' !in s && '✅' !in s && '🟢' !in s && '❌' !in s && '📈' !in s
    ensures ParseLogMessage(s).None? && ParseLogMessageAnchored(s).None?
  {
    HeadCharAbsent(StartPat, s);
    HeadCharAbsent(ClonedPat, s);
    HeadCharAbsent(PoweredPat, s);
    HeadCharAbsent(ReadyPat, s);
    HeadCharAbsent(FailedPat, s);
    HeadCharAbsent(ProgressPat, s);
  }
}
