/**
 * The patch applied to Dgeni's log service (utils/patch-log-service.ts): `log.warn` is
 * replaced by a wrapper that swallows warnings about unresolved TypeScript symbols of mixin
 * base classes and forwards every other message, alone, to the original `warn`.
 */
module LogPatch {
  import opened Sequences

  // ---- `String.prototype.includes` ----

  /** `s.includes(sub)`, decided by a left-to-right scan. */
  function Includes(s: string, sub: string): bool
    decreases |s|
  {
    |sub| <= |s| && (s[..|sub|] == sub || Includes(s[1..], sub))
  }

  /** `sub` occurs in `s` at position `i`. */
  ghost predicate OccursAt(s: string, sub: string, i: int)
  {
    0 <= i && i + |sub| <= |s| && s[i..i + |sub|] == sub
  }

  /** Its meaning: `sub` occurs at some position of `s`. */
  lemma {:induction false} IncludesIff(s: string, sub: string)
    ensures Includes(s, sub) <==> exists i :: OccursAt(s, sub, i)
    decreases |s|
  {
    if |sub| <= |s| {
      if s[..|sub|] == sub {
        assert OccursAt(s, sub, 0);
      } else {
        IncludesIff(s[1..], sub);
        if Includes(s[1..], sub) {
          var i :| OccursAt(s[1..], sub, i);
          assert s[i + 1..i + 1 + |sub|] == s[1..][i..i + |sub|];
          assert OccursAt(s, sub, i + 1);
        }
        if exists i :: OccursAt(s, sub, i) {
          var i :| OccursAt(s, sub, i);
          assert i != 0;
          assert s[1..][i - 1..i - 1 + |sub|] == s[i..i + |sub|];
          assert OccursAt(s[1..], sub, i - 1);
        }
      }
    }
  }

  // ---- the regular expression /_\w+Base/ ----

  /** `\w`: an ASCII letter, digit or underscore. */
  predicate IsWordChar(c: char)
  {
    ('a' <= c <= 'z') || ('A' <= c <= 'Z') || ('0' <= c <= '9') || c == '_'
  }

  /** `t` starts with one or more word characters followed by "Base" (backtracking over `\w+`). */
  function WordsThenBase(t: string): bool
    decreases |t|
  {
    |t| >= 1 && IsWordChar(t[0]) && ((|t| >= 5 && t[1..5] == "Base") || WordsThenBase(t[1..]))
  }

  /** `mixinNameRegex.test(s)`: some `_` starts a match. */
  function MixinNameTest(s: string): bool
    decreases |s|
  {
    |s| > 0 && ((s[0] == '_' && WordsThenBase(s[1..])) || MixinNameTest(s[1..]))
  }

  /** Every character of `s[lo..hi]` is a word character. */
  ghost predicate WordChars(s: string, lo: int, hi: int)
    requires 0 <= lo && hi <= |s|
  {
    forall k :: lo <= k < hi ==> IsWordChar(s[k])
  }

  /** `t[..j]` is one or more word characters and "Base" follows. */
  ghost predicate BaseAt(t: string, j: int)
  {
    1 <= j && j + 4 <= |t| && WordChars(t, 0, j) && t[j..j + 4] == "Base"
  }

  /** A match of `_\w+Base` at `i`, with "Base" starting at `j`. */
  ghost predicate MixinMatchAt(s: string, i: int, j: int)
  {
    0 <= i && i + 2 <= j && j + 4 <= |s| && s[i] == '_' && WordChars(s, i + 1, j) && s[j..j + 4] == "Base"
  }

  lemma {:induction false} WordsThenBaseIff(t: string)
    ensures WordsThenBase(t) <==> exists j :: BaseAt(t, j)
    decreases |t|
  {
    if |t| >= 1 && IsWordChar(t[0]) {
      if |t| >= 5 && t[1..5] == "Base" {
        assert BaseAt(t, 1);
      } else {
        var u := t[1..];
        WordsThenBaseIff(u);
        if WordsThenBase(u) {
          var j :| BaseAt(u, j);
          ShiftRight(t, j);
        }
        if exists j :: BaseAt(t, j) {
          var j :| BaseAt(t, j);
          assert j != 1;
          ShiftLeft(t, j);
        }
      }
    }
  }

  lemma {:induction false} ShiftRight(t: string, j: int)
    requires |t| >= 1 && IsWordChar(t[0]) && BaseAt(t[1..], j)
    ensures BaseAt(t, j + 1)
  {
    assert t[j + 1..j + 1 + 4] == t[1..][j..j + 4];
    forall k | 0 <= k < j + 1 ensures IsWordChar(t[k]) {
      if k > 0 { assert t[k] == t[1..][k - 1]; }
    }
  }

  lemma {:induction false} ShiftLeft(t: string, j: int)
    requires BaseAt(t, j) && j >= 2
    ensures BaseAt(t[1..], j - 1)
  {
    assert t[1..][j - 1..j - 1 + 4] == t[j..j + 4];
    forall k | 0 <= k < j - 1 ensures IsWordChar(t[1..][k]) {
      assert t[1..][k] == t[k + 1];
    }
  }

  /** The scan decides the regular expression: it succeeds iff some `_`, one or more word characters and "Base" occur in a row. */
  lemma {:induction false} MixinNameTestIff(s: string)
    ensures MixinNameTest(s) <==> exists i, j :: MixinMatchAt(s, i, j)
    decreases |s|
  {
    if |s| > 0 {
      var u := s[1..];
      MixinNameTestIff(u);
      WordsThenBaseIff(u);
      if s[0] == '_' && WordsThenBase(u) {
        var j :| BaseAt(u, j);
        MatchFromBase(s, j);
      } else if MixinNameTest(u) {
        var i, j :| MixinMatchAt(u, i, j);
        MatchShiftRight(s, i, j);
      }
      if exists i, j :: MixinMatchAt(s, i, j) {
        var i, j :| MixinMatchAt(s, i, j);
        if i == 0 {
          BaseFromMatch(s, j);
        } else {
          MatchShiftLeft(s, i, j);
        }
      }
    }
  }

  lemma {:induction false} MatchFromBase(s: string, j: int)
    requires |s| > 0 && s[0] == '_' && BaseAt(s[1..], j)
    ensures MixinMatchAt(s, 0, j + 1)
  {
    assert s[j + 1..j + 1 + 4] == s[1..][j..j + 4];
    forall k | 1 <= k < j + 1 ensures IsWordChar(s[k]) { assert s[k] == s[1..][k - 1]; }
  }

  lemma {:induction false} BaseFromMatch(s: string, j: int)
    requires MixinMatchAt(s, 0, j)
    ensures BaseAt(s[1..], j - 1)
  {
    assert s[1..][j - 1..j - 1 + 4] == s[j..j + 4];
    forall k | 0 <= k < j - 1 ensures IsWordChar(s[1..][k]) { assert s[1..][k] == s[k + 1]; }
  }

  lemma {:induction false} MatchShiftRight(s: string, i: int, j: int)
    requires |s| > 0 && MixinMatchAt(s[1..], i, j)
    ensures MixinMatchAt(s, i + 1, j + 1)
  {
    assert s[j + 1..j + 1 + 4] == s[1..][j..j + 4];
    forall k | i + 2 <= k < j + 1 ensures IsWordChar(s[k]) { assert s[k] == s[1..][k - 1]; }
  }

  lemma {:induction false} MatchShiftLeft(s: string, i: int, j: int)
    requires MixinMatchAt(s, i, j) && i >= 1
    ensures MixinMatchAt(s[1..], i - 1, j - 1)
  {
    assert s[1..][j - 1..j - 1 + 4] == s[j..j + 4];
    forall k | i <= k < j - 1 ensures IsWordChar(s[1..][k]) { assert s[1..][k] == s[k + 1]; }
  }

  // ---- the suppression rule ----

  const UnresolvedSymbol: string := "Unresolved TypeScript symbol"

  /** Line 15: the warning is swallowed. */
  function IsSuppressedWarning(message: string): (r: bool)
    ensures r ==> Includes(message, UnresolvedSymbol)
  {
    Includes(message, UnresolvedSymbol) && MixinNameTest(message)
  }

  /** A dropped warning is exactly one that names an unresolved symbol and contains `_`, word characters, "Base". */
  lemma {:induction false} SuppressedIff(message: string)
    ensures IsSuppressedWarning(message) <==>
            (exists i :: OccursAt(message, UnresolvedSymbol, i)) &&
            (exists i, j :: MixinMatchAt(message, i, j))
  {
    IncludesIff(message, UnresolvedSymbol);
    MixinNameTestIff(message);
  }

  /** The warnings the patch targets, the symbol text followed by a mixin base name such as `_MatButtonBase`, are dropped. */
  lemma {:induction false} SuppressesMixinWarning(name: string)
    requires |name| >= 1 && forall k :: 0 <= k < |name| ==> IsWordChar(name[k])
    ensures IsSuppressedWarning(UnresolvedSymbol + " _" + name + "Base")
  {
    var m := UnresolvedSymbol + " _" + name + "Base";
    var i := |UnresolvedSymbol| + 1;
    var j := i + 1 + |name|;
    assert m[0..0 + |UnresolvedSymbol|] == UnresolvedSymbol;
    assert OccursAt(m, UnresolvedSymbol, 0);
    IncludesIff(m, UnresolvedSymbol);
    assert m[j..j + 4] == "Base";
    forall k | i < k < j ensures IsWordChar(m[k]) { assert m[k] == name[k - i - 1]; }
    assert MixinMatchAt(m, i, j);
    MixinNameTestIff(m);
  }

  /** Without the symbol text a mixin name is not enough, and without a mixin name the symbol text is not. */
  lemma {:induction false} OneConditionIsNotEnough(message: string)
    ensures !Includes(message, UnresolvedSymbol) ==> !IsSuppressedWarning(message)
    ensures !MixinNameTest(message) ==> !IsSuppressedWarning(message)
  {
  }

  // ---- the patched log ----

  /** The argument lists one call of `warn(message, ...extra)` passes to the original `warn`. */
  function WarnEffect(patched: bool, message: string, extra: seq<string>): (r: seq<seq<string>>)
    ensures !patched ==> r == [[message] + extra]
    ensures patched ==> (r == [] <==> IsSuppressedWarning(message)) && (r != [] ==> r == [[message]])
  {
    if !patched then [[message] + extra] else if IsSuppressedWarning(message) then [] else [[message]]
  }

  /** What reaches the original `warn` after a series of `warn` calls, in order. */
  function WarnTrace(patched: bool, calls: seq<(string, seq<string>)>): seq<seq<string>>
  {
    if calls == [] then [] else WarnTrace(patched, calls[..|calls| - 1]) + WarnEffect(patched, calls[|calls| - 1].0, calls[|calls| - 1].1)
  }

  function MessageOf(call: (string, seq<string>)): string { call.0 }

  predicate IsForwarded(message: string) { !IsSuppressedWarning(message) }

  function Singletons(messages: seq<string>): (r: seq<seq<string>>)
    ensures |r| == |messages| && forall i :: 0 <= i < |r| ==> r[i] == [messages[i]]
  {
    seq(|messages|, i requires 0 <= i < |messages| => [messages[i]])
  }

  function Messages(calls: seq<(string, seq<string>)>): (r: seq<string>)
    ensures |r| == |calls| && forall i :: 0 <= i < |r| ==> r[i] == calls[i].0
  {
    if calls == [] then [] else Messages(calls[..|calls| - 1]) + [calls[|calls| - 1].0]
  }

  /**
   * After patching, the original `warn` receives each non-suppressed message exactly once, alone,
   * in call order, and nothing else.
   */
  lemma {:induction false} PatchedTrace(calls: seq<(string, seq<string>)>)
    ensures WarnTrace(true, calls) == Singletons(Filter(Messages(calls), IsForwarded))
  {
    if calls != [] {
      var init := calls[..|calls| - 1];
      PatchedTrace(init);
      FilterAppend(Messages(init), [calls[|calls| - 1].0], IsForwarded);
      SingletonsAppend(Filter(Messages(init), IsForwarded), Filter([calls[|calls| - 1].0], IsForwarded));
    }
  }

  lemma {:induction false} SingletonsAppend(a: seq<string>, b: seq<string>)
    ensures Singletons(a + b) == Singletons(a) + Singletons(b)
  {
    assert forall i :: 0 <= i < |a| + |b| ==> Singletons(a + b)[i] == (Singletons(a) + Singletons(b))[i];
  }

  /** Before patching every call reaches the original `warn` with all its arguments. */
  lemma {:induction false} UnpatchedTrace(calls: seq<(string, seq<string>)>)
    ensures |WarnTrace(false, calls)| == |calls|
    ensures forall i :: 0 <= i < |calls| ==> WarnTrace(false, calls)[i] == [calls[i].0] + calls[i].1
  {
    if calls != [] {
      UnpatchedTrace(calls[..|calls| - 1]);
    }
  }

  /** Dgeni's log service: what its original `warn` and its other methods were given. */
  class Log {
    /** Argument lists received by the original `warn`. */
    var warnCalls: seq<seq<string>>
    /** Calls to the other methods (info, error, debug, ...), by method name. */
    var otherCalls: seq<(string, seq<string>)>
    /** Whether `log.warn` is the patched wrapper (patching twice filters by the same rule twice, so it is the same). */
    var warnPatched: bool

    constructor ()
      ensures warnCalls == [] && otherCalls == [] && !warnPatched
    {
      warnCalls := [];
      otherCalls := [];
      warnPatched := false;
    }

    /** `log.warn(message, ...extra)`. */
    method Warn(message: string, extra: seq<string>)
      modifies this
      ensures warnCalls == old(warnCalls) + WarnEffect(old(warnPatched), message, extra)
      ensures otherCalls == old(otherCalls) && warnPatched == old(warnPatched)
    {
      if warnPatched {
        if Includes(message, UnresolvedSymbol) && MixinNameTest(message) {
          return;
        }
        warnCalls := warnCalls + [[message]];
      } else {
        warnCalls := warnCalls + [[message] + extra];
      }
    }

    /** Any other method of the log service, untouched by the patch. */
    method Call(methodName: string, args: seq<string>)
      modifies this
      ensures otherCalls == old(otherCalls) + [(methodName, args)]
      ensures warnCalls == old(warnCalls) && warnPatched == old(warnPatched)
    {
      otherCalls := otherCalls + [(methodName, args)];
    }
  }

  /** `patchLogService(log)`: from now on `warn` filters; nothing has been logged by it. */
  method PatchLogService(log: Log)
    modifies log
    ensures log.warnPatched
    ensures log.warnCalls == old(log.warnCalls) && log.otherCalls == old(log.otherCalls)
  {
    log.warnPatched := true;
  }
}
