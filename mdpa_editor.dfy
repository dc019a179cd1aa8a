/** The mesh-file editor: `$placeholder` tokens in the text of an `.mdpa`
    file are replaced by formatted numbers, and the text is saved only when
    something was replaced. */
module Mdpa {
  import opened Common

  /** `\w` for the characters that occur in mesh files. */
  predicate IsWordChar(c: char)
  {
    'a' <= c <= 'z' || 'A' <= c <= 'Z' || '0' <= c <= '9' || c == '_'
  }

  /** A placeholder pattern `\$name\b`: a dollar sign, no other dollar sign,
      ending in a word character so that `\b` asks for a non-word character or
      the end of the text after it. */
  predicate Placeholder(pat: string)
  {
    |pat| > 1 && pat[0] == '$' && (forall k :: 1 <= k < |pat| ==> pat[k] != '$') && IsWordChar(pat[|pat| - 1])
  }

  /** The pattern `pat\b` matches the text at position `i`. */
  predicate MatchAt(text: string, pat: string, i: nat)
  {
    i + |pat| <= |text| && text[i..i + |pat|] == pat && (i + |pat| == |text| || !IsWordChar(text[i + |pat|]))
  }

  /** The result of `re.subn`: the new text and the number of replacements. */
  datatype Subn = Subn(text: string, count: nat)

  /** `re.subn(pat, rep, text)`: scanning left to right, every match is
      replaced and scanning resumes after it; the count of replacements comes
      with the new text. */
  function Subst(text: string, pat: string, rep: string): (r: Subn)
    requires pat != []
    decreases |text|
  {
    if text == [] then Subn("", 0)
    else if MatchAt(text, pat, 0) then
      var Subn(s, n) := Subst(text[|pat|..], pat, rep);
      Subn(rep + s, n + 1)
    else
      var Subn(s, n) := Subst(text[1..], pat, rep);
      Subn([text[0]] + s, n)
  }

  /** Reference count: the positions where the pattern matches. */
  function MatchCount(text: string, pat: string): nat
  {
    if text == [] then 0 else (if MatchAt(text, pat, 0) then 1 else 0) + MatchCount(text[1..], pat)
  }

  lemma {:induction false} MatchAtTail(text: string, pat: string, i: nat)
    requires text != []
    ensures MatchAt(text[1..], pat, i) <==> MatchAt(text, pat, i + 1)
  {
    if i + 1 + |pat| <= |text| {
      assert text[1..][i..i + |pat|] == text[i + 1..i + 1 + |pat|];
    }
  }

  /** No match starts at a position that does not hold a dollar sign. */
  lemma {:induction false} NoMatchWithoutDollar(text: string, pat: string, i: nat)
    requires Placeholder(pat)
    requires i < |text| && text[i] != '$'
    ensures !MatchAt(text, pat, i)
  {
    if i + |pat| <= |text| {
      assert text[i..i + |pat|][0] == text[i];
    }
  }

  lemma SubstKeep(text: string, pat: string, rep: string)
    requires pat != [] && text != [] && !MatchAt(text, pat, 0)
    ensures Subst(text, pat, rep) == Subn([text[0]] + Subst(text[1..], pat, rep).text, Subst(text[1..], pat, rep).count)
  {
  }

  lemma SubstReplace(text: string, pat: string, rep: string)
    requires pat != [] && text != [] && MatchAt(text, pat, 0)
    ensures Subst(text, pat, rep) == Subn(rep + Subst(text[|pat|..], pat, rep).text, Subst(text[|pat|..], pat, rep).count + 1)
  {
  }

  /** Nothing is replaced exactly when the pattern matches nowhere, and then
      the text is unchanged: this is the editor's warn-and-keep case. */
  lemma {:induction false} SubstCountZero(text: string, pat: string, rep: string)
    requires pat != []
    ensures Subst(text, pat, rep).count == 0 <==> forall i :: !MatchAt(text, pat, i)
    ensures Subst(text, pat, rep).count == 0 ==> Subst(text, pat, rep).text == text
    decreases |text|
  {
    if text == [] {
      forall i ensures !MatchAt(text, pat, i) { }
    } else if MatchAt(text, pat, 0) {
      assert Subst(text, pat, rep).count > 0;
    } else {
      SubstCountZero(text[1..], pat, rep);
      forall i: nat
        ensures MatchAt(text[1..], pat, i) <==> MatchAt(text, pat, i + 1)
      {
        MatchAtTail(text, pat, i);
      }
      if Subst(text, pat, rep).count == 0 {
        forall i: nat
          ensures !MatchAt(text, pat, i)
        {
          if i > 0 {
            assert !MatchAt(text[1..], pat, i - 1);
          }
        }
        assert [text[0]] + text[1..] == text;
      } else {
        var i: nat :| MatchAt(text[1..], pat, i);
        assert MatchAt(text, pat, i + 1);
      }
    }
  }

  /** The text of a match holds no dollar sign after its first character, so
      no other match starts inside it. */
  lemma {:induction false} MatchCountSkip(text: string, pat: string, k: nat)
    requires Placeholder(pat)
    requires 1 <= k <= |text|
    requires forall m :: 1 <= m < k ==> text[m] != '$'
    ensures MatchCount(text[1..], pat) == MatchCount(text[k..], pat)
    decreases k
  {
    if k > 1 {
      assert text[1..] != [];
      NoMatchWithoutDollar(text[1..], pat, 0);
      assert text[1..][1..] == text[2..];
      MatchCountSkip(text[1..], pat, k - 1);
      forall m | 1 <= m < k - 1
        ensures text[1..][m] != '$'
      {
        assert text[1..][m] == text[m + 1];
      }
      assert text[1..][k - 1..] == text[k..];
    }
  }

  /** A placeholder is replaced at every position where it matches. */
  lemma {:induction false} SubstCountsMatches(text: string, pat: string, rep: string)
    requires Placeholder(pat)
    ensures Subst(text, pat, rep).count == MatchCount(text, pat)
    decreases |text|
  {
    if text != [] {
      if MatchAt(text, pat, 0) {
        SubstCountsMatches(text[|pat|..], pat, rep);
        forall m | 1 <= m < |pat|
          ensures text[m] != '$'
        {
          assert text[..|pat|][m] == pat[m];
        }
        MatchCountSkip(text, pat, |pat|);
      } else {
        SubstCountsMatches(text[1..], pat, rep);
      }
    }
  }

  /** Text without a dollar sign passes through untouched. */
  lemma {:induction false} SubstNoDollar(u: string, post: string, pat: string, rep: string)
    requires Placeholder(pat)
    requires forall k :: 0 <= k < |u| ==> u[k] != '$'
    ensures Subst(u + post, pat, rep) == Subn(u + Subst(post, pat, rep).text, Subst(post, pat, rep).count)
    decreases |u|
  {
    if u != [] {
      var t := u + post;
      NoMatchWithoutDollar(t, pat, 0);
      SubstKeep(t, pat, rep);
      assert t[1..] == u[1..] + post;
      SubstNoDollar(u[1..], post, pat, rep);
      assert [t[0]] + (u[1..] + Subst(post, pat, rep).text) == u + Subst(post, pat, rep).text;
    } else {
      assert u + post == post;
      assert u + Subst(post, pat, rep).text == Subst(post, pat, rep).text;
    }
  }

  /** The text can be cut in front of any dollar sign: no match runs across
      the cut, and the character after the cut is a boundary for `\b` just as
      the end of the text is. */
  lemma {:induction false} SubstAppend(a: string, b: string, pat: string, rep: string)
    requires Placeholder(pat)
    requires b != [] && b[0] == '$'
    ensures Subst(a + b, pat, rep) ==
      Subn(Subst(a, pat, rep).text + Subst(b, pat, rep).text, Subst(a, pat, rep).count + Subst(b, pat, rep).count)
    decreases |a|
  {
    if a == [] {
      assert a + b == b;
      assert Subst(a, pat, rep) == Subn("", 0);
      assert "" + Subst(b, pat, rep).text == Subst(b, pat, rep).text;
    } else if MatchAt(a, pat, 0) {
      SubstAppend(a[|pat|..], b, pat, rep);
      SubstAppendReplaced(a, b, pat, rep);
    } else {
      SubstAppend(a[1..], b, pat, rep);
      SubstAppendKept(a, b, pat, rep);
    }
  }

  /** The step of SubstAppend where `a` starts with a match. */
  lemma SubstAppendReplaced(a: string, b: string, pat: string, rep: string)
    requires Placeholder(pat)
    requires b != [] && b[0] == '$' && a != [] && MatchAt(a, pat, 0)
    requires Subst(a[|pat|..] + b, pat, rep) ==
      Subn(Subst(a[|pat|..], pat, rep).text + Subst(b, pat, rep).text, Subst(a[|pat|..], pat, rep).count + Subst(b, pat, rep).count)
    ensures Subst(a + b, pat, rep) ==
      Subn(Subst(a, pat, rep).text + Subst(b, pat, rep).text, Subst(a, pat, rep).count + Subst(b, pat, rep).count)
  {
    var sb := Subst(b, pat, rep);
    var sr := Subst(a[|pat|..], pat, rep);
    SubstConsReplaced(a, b, pat, rep);
    SubstReplace(a, pat, rep);
    PrefixPair(rep, 1, Subst(a + b, pat, rep), Subst(a[|pat|..] + b, pat, rep), Subst(a, pat, rep), sr, sb);
  }

  /** The step of SubstAppend where `a` does not start with a match. */
  lemma SubstAppendKept(a: string, b: string, pat: string, rep: string)
    requires Placeholder(pat)
    requires b != [] && b[0] == '$' && a != [] && !MatchAt(a, pat, 0)
    requires Subst(a[1..] + b, pat, rep) ==
      Subn(Subst(a[1..], pat, rep).text + Subst(b, pat, rep).text, Subst(a[1..], pat, rep).count + Subst(b, pat, rep).count)
    ensures Subst(a + b, pat, rep) ==
      Subn(Subst(a, pat, rep).text + Subst(b, pat, rep).text, Subst(a, pat, rep).count + Subst(b, pat, rep).count)
  {
    var sb := Subst(b, pat, rep);
    var sr := Subst(a[1..], pat, rep);
    SubstConsKept(a, b, pat, rep);
    SubstKeep(a, pat, rep);
    PrefixPair([a[0]], 0, Subst(a + b, pat, rep), Subst(a[1..] + b, pat, rep), Subst(a, pat, rep), sr, sb);
  }

  /** Prefixing the text and adding to the count of a concatenated result
      is the same as doing so to its first part. */
  lemma PrefixPair(p: string, c: nat, whole: Subn, tail: Subn, first: Subn, sr: Subn, sb: Subn)
    requires whole == Subn(p + tail.text, tail.count + c)
    requires tail == Subn(sr.text + sb.text, sr.count + sb.count)
    requires first == Subn(p + sr.text, sr.count + c)
    ensures whole == Subn(first.text + sb.text, first.count + sb.count)
  {
    assert p + (sr.text + sb.text) == p + sr.text + sb.text;
  }

  /** A match at the front of `a` is a match at the front of `a + b`. */
  lemma SubstConsReplaced(a: string, b: string, pat: string, rep: string)
    requires Placeholder(pat)
    requires b != [] && b[0] == '$' && a != [] && MatchAt(a, pat, 0)
    ensures Subst(a + b, pat, rep) == Subn(rep + Subst(a[|pat|..] + b, pat, rep).text, Subst(a[|pat|..] + b, pat, rep).count + 1)
  {
    var t := a + b;
    MatchAtFront(a, b, pat);
    assert t[|pat|..] == a[|pat|..] + b;
    SubstReplace(t, pat, rep);
  }

  /** No match at the front of `a` is no match at the front of `a + b`. */
  lemma SubstConsKept(a: string, b: string, pat: string, rep: string)
    requires Placeholder(pat)
    requires b != [] && b[0] == '$' && a != [] && !MatchAt(a, pat, 0)
    ensures Subst(a + b, pat, rep) == Subn([a[0]] + Subst(a[1..] + b, pat, rep).text, Subst(a[1..] + b, pat, rep).count)
  {
    var t := a + b;
    MatchAtFront(a, b, pat);
    assert t[1..] == a[1..] + b;
    SubstKeep(t, pat, rep);
  }

  /** A match at the front of `a + b` lies inside `a`, and the dollar sign
      starting `b` is a boundary just as the end of `a` is. */
  lemma MatchAtFront(a: string, b: string, pat: string)
    requires Placeholder(pat)
    requires a != [] && b != [] && b[0] == '$'
    ensures MatchAt(a + b, pat, 0) <==> MatchAt(a, pat, 0)
  {
    var t := a + b;
    if |pat| < |a| {
      assert t[..|pat|] == a[..|pat|];
      assert t[|pat|] == a[|pat|];
    } else if |pat| == |a| {
      assert t[..|pat|] == a;
      assert t[|pat|] == '$';
    } else {
      assert t[|a|] == '$';
      if |pat| <= |t| {
        assert t[..|pat|][|a|] == t[|a|];
      }
    }
  }

  const MAXIMUM_STRAIN: string := "$maximum_strain"
  const MIDDLE_MAXIMUM_STRAIN: string := "$middle_maximum_strain"
  const INITIAL_EFFECTIVE_CELL_PRESSURE: string := "$initial_effective_cell_pressure"
  const FIRST_TIMESTEP: string := "$first_timestep"
  const END_TIME: string := "$end_time"

  lemma PlaceholdersWellFormed()
    ensures Placeholder(MAXIMUM_STRAIN) && Placeholder(MIDDLE_MAXIMUM_STRAIN)
    ensures Placeholder(INITIAL_EFFECTIVE_CELL_PRESSURE) && Placeholder(FIRST_TIMESTEP) && Placeholder(END_TIME)
  {
  }

  /** A token that starts with a dollar sign, holds no other one and does
      not start with the pattern passes through any substitution of it. */
  lemma {:induction false} ForeignTokenSurvives(pre: string, mid: string, post: string, pat: string, rep: string)
    requires Placeholder(pat)
    requires |mid| >= |pat| && mid[0] == '$' && mid[..|pat|] != pat
    requires forall k :: 1 <= k < |mid| ==> mid[k] != '$'
    ensures Subst(pre + mid + post, pat, rep) ==
      Subn(Subst(pre, pat, rep).text + mid + Subst(post, pat, rep).text, Subst(pre, pat, rep).count + Subst(post, pat, rep).count)
  {
    var b := mid + post;
    var sPost := Subst(post, pat, rep);
    assert Subst(b, pat, rep) == Subn(mid + sPost.text, sPost.count) by {
      assert !MatchAt(b, pat, 0) by {
        assert b[..|pat|] == mid[..|pat|];
      }
      SubstKeep(b, pat, rep);
      var u := mid[1..];
      assert b[1..] == u + post;
      SubstNoDollar(u, post, pat, rep);
      assert [b[0]] + u == mid;
      assert [b[0]] + (u + sPost.text) == mid + sPost.text;
    }
    assert pre + mid + post == pre + b;
    SubstAppend(pre, b, pat, rep);
    var sPre := Subst(pre, pat, rep);
    assert sPre.text + (mid + sPost.text) == sPre.text + mid + sPost.text;
  }

  /** Replacing `$maximum_strain` leaves every `$middle_maximum_strain`
      token where it is: the text around it is edited as if it were cut
      there. */
  lemma {:induction false} MiddleTokenSurvives(pre: string, post: string, rep: string)
    ensures Subst(pre + MIDDLE_MAXIMUM_STRAIN + post, MAXIMUM_STRAIN, rep) ==
      Subn(Subst(pre, MAXIMUM_STRAIN, rep).text + MIDDLE_MAXIMUM_STRAIN + Subst(post, MAXIMUM_STRAIN, rep).text,
       Subst(pre, MAXIMUM_STRAIN, rep).count + Subst(post, MAXIMUM_STRAIN, rep).count)
  {
    PlaceholdersWellFormed();
    assert MIDDLE_MAXIMUM_STRAIN[..|MAXIMUM_STRAIN|] != MAXIMUM_STRAIN by {
      assert MIDDLE_MAXIMUM_STRAIN[2] == 'i' && MAXIMUM_STRAIN[2] == 'a';
      assert MIDDLE_MAXIMUM_STRAIN[..|MAXIMUM_STRAIN|][2] == MIDDLE_MAXIMUM_STRAIN[2];
    }
    ForeignTokenSurvives(pre, MIDDLE_MAXIMUM_STRAIN, post, MAXIMUM_STRAIN, rep);
  }

  /** A placeholder followed by a word character is a different name and is
      left alone. */
  lemma {:induction false} LongerNameNotMatched(pat: string, t: string, rep: string)
    requires Placeholder(pat)
    requires |t| > |pat| && t[..|pat|] == pat && IsWordChar(t[|pat|])
    requires forall k :: 1 <= k < |t| ==> t[k] != '$'
    ensures Subst(t, pat, rep) == Subn(t, 0)
  {
    SubstKeep(t, pat, rep);
    SubstNoDollar(t[1..], [], pat, rep);
    assert t[1..] + [] == t[1..];
    assert Subst([], pat, rep) == Subn("", 0);
    assert [t[0]] + (t[1..] + "") == t;
  }

  lemma {:induction false} EndTimesNotMatched(rep: string)
    ensures Subst("$end_times", END_TIME, rep) == Subn("$end_times", 0)
  {
    PlaceholdersWellFormed();
    LongerNameNotMatched(END_TIME, "$end_times", rep);
  }

  /** The mesh-file editor over the file text it read; `saved` is what the
      file holds after the last save. */
  class MdpaEditor {
    var rawText: string
    var saved: string
    var log: seq<LogEntry>

    constructor (text: string)
      ensures rawText == text && saved == text && log == []
    {
      rawText := text;
      saved := text;
      log := [];
    }

    /** The common step of every update: substitute, then either keep the
        text and warn, or store and save it. */
    method ReplacePlaceholder(pat: string, rep: string, warning: string)
      requires Placeholder(pat)
      modifies this
      ensures var Subn(t, n) := Subst(old(rawText), pat, rep);
        if n == 0 then rawText == old(rawText) && saved == old(saved) && log == old(log) + [Message(WarnLevel, warning)]
        else rawText == t && saved == t && log == old(log)
    {
      var newText, count := Subst(rawText, pat, rep).text, Subst(rawText, pat, rep).count;
      if count == 0 {
        log := log + [Message(WarnLevel, warning)];
      } else {
        rawText := newText;
        saved := rawText;
      }
    }

    /** `$maximum_strain` becomes the prescribed displacement −strain/100,
        rendered by `fixed4` (the `.4f` format). */
    method UpdateMaximumStrain(maximumStrain: real, fixed4: real -> string)
      modifies this
      ensures var Subn(t, n) := Subst(old(rawText), MAXIMUM_STRAIN, fixed4(-maximumStrain / 100.0));
        if n == 0 then rawText == old(rawText) && saved == old(saved) && log == old(log) + [Message(WarnLevel, "Could not update maximum strain.")]
        else rawText == t && saved == t && log == old(log)
    {
      PlaceholdersWellFormed();
      var prescribedDisplacement := -maximumStrain / 100.0;
      ReplacePlaceholder(MAXIMUM_STRAIN, fixed4(prescribedDisplacement), "Could not update maximum strain.");
    }

    /** `$initial_effective_cell_pressure` becomes the pressure itself. */
    method UpdateInitialEffectiveCellPressure(pressure: real, fixed4: real -> string)
      modifies this
      ensures var Subn(t, n) := Subst(old(rawText), INITIAL_EFFECTIVE_CELL_PRESSURE, fixed4(pressure));
        if n == 0 then rawText == old(rawText) && saved == old(saved) && log == old(log) + [Message(WarnLevel, "Could not update initial effective cell pressure.")]
        else rawText == t && saved == t && log == old(log)
    {
      PlaceholdersWellFormed();
      ReplacePlaceholder(INITIAL_EFFECTIVE_CELL_PRESSURE, fixed4(pressure), "Could not update initial effective cell pressure.");
    }

    /** `$first_timestep` becomes end_time / num_steps; no steps raises
        ZeroDivisionError before the text is looked at. */
    method UpdateFirstTimestep(numSteps: int, endTime: real, fixed4: real -> string) returns (r: Outcome)
      modifies this
      ensures numSteps == 0 ==> r == Fail(ZeroDivisionError) && rawText == old(rawText) && saved == old(saved) && log == old(log)
      ensures numSteps != 0 ==> r == Pass
      ensures numSteps != 0 ==>
        var Subn(t, n) := Subst(old(rawText), FIRST_TIMESTEP, fixed4(endTime / numSteps as real));
        if n == 0 then rawText == old(rawText) && saved == old(saved) && log == old(log) + [Message(WarnLevel, "Could not apply the first time step.")]
        else rawText == t && saved == t && log == old(log)
    {
      if numSteps == 0 {
        return Fail(ZeroDivisionError);
      }
      PlaceholdersWellFormed();
      var firstTimestep := endTime / numSteps as real;
      ReplacePlaceholder(FIRST_TIMESTEP, fixed4(firstTimestep), "Could not apply the first time step.");
      r := Pass;
    }

    /** `$end_time` becomes `str(end_time)`, rendered by `repr`. */
    method UpdateEndTime(endTime: real, repr: real -> string)
      modifies this
      ensures var Subn(t, n) := Subst(old(rawText), END_TIME, repr(endTime));
        if n == 0 then rawText == old(rawText) && saved == old(saved) && log == old(log) + [Message(WarnLevel, "Could not update the end time.")]
        else rawText == t && saved == t && log == old(log)
    {
      PlaceholdersWellFormed();
      ReplacePlaceholder(END_TIME, repr(endTime), "Could not update the end time.");
    }

    /** `$middle_maximum_strain` becomes (−strain/2)/100. */
    method UpdateMiddleMaximumStrain(maximumStrain: real, fixed4: real -> string)
      modifies this
      ensures var Subn(t, n) := Subst(old(rawText), MIDDLE_MAXIMUM_STRAIN, fixed4((-maximumStrain / 2.0) / 100.0));
        if n == 0 then rawText == old(rawText) && saved == old(saved) && log == old(log) + [Message(WarnLevel, "Could not update middle maximum strain.")]
        else rawText == t && saved == t && log == old(log)
    {
      PlaceholdersWellFormed();
      var prescribedMiddleDisplacement := (-maximumStrain / 2.0) / 100.0;
      ReplacePlaceholder(MIDDLE_MAXIMUM_STRAIN, fixed4(prescribedMiddleDisplacement), "Could not update middle maximum strain.");
    }
  }

  /** Opening the editor: a missing file raises RuntimeError. */
  method Open(file: Option<string>) returns (r: Result<MdpaEditor>)
    ensures r.Err? <==> file.None?
    ensures r.Err? ==> r.error == RuntimeError
    ensures r.Ok? ==> fresh(r.value) && r.value.rawText == file.value && r.value.saved == file.value && r.value.log == []
  {
    if file.None? {
      return Err(RuntimeError);
    }
    var editor := new MdpaEditor(file.value);
    r := Ok(editor);
  }
}
