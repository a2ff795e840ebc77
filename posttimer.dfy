/** The delayed-post button of the new-post page: the delay typed into the
    prompt (`2h30m`, `45min`, ...) is read as seconds, and a one-second
    tick counts it down, showing the time left, and publishes at zero. */
module PostTimer {
  import opened Wrappers
  import opened Numbers

  const BUTTON_TITLE := "ImgurGeeks Post Delay..."
  const POSTING_TITLE := " -- POSTING ---"

  // ---- The delay string ----

  predicate IsLetter(c: char)
  {
    'a' <= c <= 'z' || 'A' <= c <= 'Z'
  }

  predicate AllLetters(s: string)
  {
    forall i :: 0 <= i < |s| ==> IsLetter(s[i])
  }

  /** `s.replace(/\s+/g, '')`: every whitespace character removed. */
  function StripSpaces(s: string): (r: string)
    ensures forall i :: 0 <= i < |r| ==> !IsJsWhitespace(r[i])
    ensures (forall i :: 0 <= i < |s| ==> !IsJsWhitespace(s[i])) ==> r == s
  {
    if s == [] then [] else (if IsJsWhitespace(s[0]) then [] else [s[0]]) + StripSpaces(s[1..])
  }

  /** Length of the longest all-digit prefix: what `([0-9]*)` takes. */
  function DigitSpan(s: string): (n: nat)
    ensures n <= |s| && AllDigits(s[..n]) && (n < |s| ==> !IsDigit(s[n]))
  {
    if s == [] || !IsDigit(s[0]) then 0
    else
      var n := 1 + DigitSpan(s[1..]);
      assert s[..n] == [s[0]] + s[1..][..n - 1];
      n
  }

  /** Length of the longest all-letter prefix: what `([a-zA-Z]*)` takes. */
  function LetterSpan(s: string): (n: nat)
    ensures n <= |s| && AllLetters(s[..n]) && (n < |s| ==> !IsLetter(s[n]))
  {
    if s == [] || !IsLetter(s[0]) then 0
    else
      var n := 1 + LetterSpan(s[1..]);
      assert s[..n] == [s[0]] + s[1..][..n - 1];
      n
  }

  /** `toLowerCase` on ASCII letters. */
  function Lower(s: string): (r: string)
    ensures |r| == |s|
  {
    if s == [] then []
    else [if 'A' <= s[0] <= 'Z' then (s[0] as int + 32) as char else s[0]] + Lower(s[1..])
  }

  const HOUR_UNITS: seq<string> := ["h", "hr", "hrs", "hours"]
  const MINUTE_UNITS: seq<string> := ["m", "min", "mins", "minutes"]

  /** The groups of `/^([0-9]*)([a-zA-Z]*)([0-9]*)([a-zA-Z]*)$/` on `t`:
      digits, letters, digits (the last letters are not kept), or `None`
      when `t` does not have that shape. */
  function Groups(t: string): (g: Option<(string, string, string)>)
    ensures g.Some? ==> AllDigits(g.value.0) && AllLetters(g.value.1) && AllDigits(g.value.2)
  {
    var a := DigitSpan(t);
    var t1 := t[a..];
    var b := LetterSpan(t1);
    var t2 := t1[b..];
    var c := DigitSpan(t2);
    var t3 := t2[c..];
    if LetterSpan(t3) == |t3| then Some((t[..a], t1[..b], t2[..c])) else None
  }

  /** The hours and minutes the groups give: hours then minutes after an
      hour unit, minutes alone after a minute unit, nothing otherwise. */
  function UnitsOf(g: Option<(string, string, string)>): (nat, nat)
    requires g.Some? ==> AllDigits(g.value.0) && AllDigits(g.value.2)
  {
    match g
    case None => (0, 0)
    case Some((g1, g2, g3)) =>
      var num1, unit, num2 := DigitsValue(g1), Lower(g2), DigitsValue(g3);
      if unit in HOUR_UNITS then (num1, num2)
      else if unit in MINUTE_UNITS then (0, num1)
      else (0, 0)
  }

  /** The seconds of a number of hours and minutes; `None` for zero. */
  function SecondsOf(hm: (nat, nat)): (r: Option<nat>)
    ensures r.Some? ==> r.value > 0 && r.value % 60 == 0
    ensures r.None? <==> hm.0 == 0 && hm.1 == 0
  {
    var (hrs, mins) := hm;
    if hrs == 0 && mins == 0 then None else Some((hrs * 60 + mins) * 60)
  }

  /** The delay in seconds, or `None` when the text is rejected (no
      match, an unknown unit, or zero hours and zero minutes). */
  function ParseDelay(input: string): (r: Option<nat>)
  {
    SecondsOf(UnitsOf(Groups(StripSpaces(input))))
  }

  // ---- Properties of the parse ----

  lemma {:induction false} DigitSpanOf(ds: string, rest: string)
    requires AllDigits(ds) && (rest != [] ==> !IsDigit(rest[0]))
    ensures DigitSpan(ds + rest) == |ds|
  {
    if ds == [] {
      assert ds + rest == rest;
    } else {
      assert (ds + rest)[1..] == ds[1..] + rest;
      DigitSpanOf(ds[1..], rest);
    }
  }

  lemma {:induction false} LetterSpanOf(ls: string, rest: string)
    requires AllLetters(ls) && (rest != [] ==> !IsLetter(rest[0]))
    ensures LetterSpan(ls + rest) == |ls|
  {
    if ls == [] {
      assert ls + rest == rest;
    } else {
      assert (ls + rest)[1..] == ls[1..] + rest;
      LetterSpanOf(ls[1..], rest);
    }
  }

  lemma Pieces(g1: string, u: string, g3: string, w: string)
    ensures var t, t1, t2 := g1 + u + g3 + w, u + g3 + w, g3 + w;
            t[..|g1|] == g1 && t[|g1|..] == t1 && t1[..|u|] == u && t1[|u|..] == t2
            && t2[..|g3|] == g3 && t2[|g3|..] == w
  {
    var t, t1, t2 := g1 + u + g3 + w, u + g3 + w, g3 + w;
    assert t == g1 + t1;
    assert t1 == u + t2;
  }

  lemma FirstSpan(g1: string, t1: string)
    requires AllDigits(g1) && t1 != [] && IsLetter(t1[0])
    ensures DigitSpan(g1 + t1) == |g1|
  {
    DigitSpanOf(g1, t1);
  }

  lemma SecondSpan(u: string, t2: string)
    requires AllLetters(u) && (t2 != [] ==> IsDigit(t2[0]))
    ensures LetterSpan(u + t2) == |u|
  {
    LetterSpanOf(u, t2);
  }

  lemma LastSpan(w: string)
    requires AllLetters(w)
    ensures LetterSpan(w) == |w|
  {
    assert w + [] == w;
    LetterSpanOf(w, []);
  }

  /** A text of the shape digits, letters, digits, letters (the second
      digits non-empty when letters follow them) is cut at its runs. */
  lemma GroupsOfShape(g1: string, u: string, g3: string, w: string)
    requires AllDigits(g1) && AllLetters(u) && u != [] && AllDigits(g3) && AllLetters(w)
    requires g3 != [] || w == []
    ensures Groups(g1 + u + g3 + w) == Some((g1, u, g3))
  {
    Pieces(g1, u, g3, w);
    var t2 := g3 + w;
    var t1 := u + t2;
    assert g1 + u + g3 + w == g1 + t1;
    assert t1[0] == u[0];
    FirstSpan(g1, t1);
    if g3 != [] {
      assert t2[0] == g3[0];
    }
    SecondSpan(u, t2);
    if w != [] {
      assert IsLetter(w[0]);
    }
    DigitSpanOf(g3, w);
    LastSpan(w);
  }

  lemma NoSpacesIn(s: string)
    requires AllDigits(s) || AllLetters(s)
    ensures forall i :: 0 <= i < |s| ==> !IsJsWhitespace(s[i])
  {
  }

  lemma StripShape(g1: string, u: string, g3: string, w: string)
    requires AllDigits(g1) && AllLetters(u) && AllDigits(g3) && AllLetters(w)
    ensures StripSpaces(g1 + u + g3 + w) == g1 + u + g3 + w
  {
    NoSpacesIn(g1);
    NoSpacesIn(u);
    NoSpacesIn(g3);
    NoSpacesIn(w);
    var t := g1 + u + g3 + w;
    assert forall i :: 0 <= i < |t| ==> !IsJsWhitespace(t[i]) by {
      forall i | 0 <= i < |t|
        ensures !IsJsWhitespace(t[i])
      {
        if i < |g1| {
          assert t[i] == g1[i];
        } else if i < |g1| + |u| {
          assert t[i] == u[i - |g1|];
        } else if i < |g1| + |u| + |g3| {
          assert t[i] == g3[i - |g1| - |u|];
        } else {
          assert t[i] == w[i - |g1| - |u| - |g3|];
        }
      }
    }
  }

  /** Every hour unit starts with `h` and every minute unit with `m`. */
  lemma UnitsDisjoint(x: string)
    requires x in MINUTE_UNITS
    ensures x !in HOUR_UNITS
  {
    assert forall y :: y in HOUR_UNITS ==> y[0] == 'h';
    assert x[0] == 'm';
  }

  /** A text of that shape passes the space removal unchanged and is cut
      at its runs. */
  lemma ParsedShape(g1: string, u: string, g3: string, w: string)
    requires AllDigits(g1) && AllLetters(u) && u != [] && AllDigits(g3) && AllLetters(w)
    requires g3 != [] || w == []
    ensures Groups(StripSpaces(g1 + u + g3 + w)) == Some((g1, u, g3))
  {
    StripShape(g1, u, g3, w);
    GroupsOfShape(g1, u, g3, w);
  }

  /** Hours form: after an hour unit the first number is hours and the
      second minutes; the letters after the minutes are not looked at. */
  lemma HoursForm(g1: string, u: string, g3: string, w: string)
    requires AllDigits(g1) && AllLetters(u) && AllDigits(g3) && AllLetters(w)
    requires g3 != [] || w == []
    requires Lower(u) in HOUR_UNITS
    ensures var r, h, m := ParseDelay(g1 + u + g3 + w), DigitsValue(g1), DigitsValue(g3);
            (r.None? <==> h == 0 && m == 0) && (r.Some? ==> r.value == h * 3600 + m * 60)
  {
    var h, m := DigitsValue(g1), DigitsValue(g3);
    assert ParseDelay(g1 + u + g3 + w) == SecondsOf((h, m)) by {
      assert u != [] by {
        assert |Lower(u)| > 0;
      }
      ParsedShape(g1, u, g3, w);
    }
  }

  /** Minutes form: after a minute unit the first number is minutes and
      the second number is ignored. */
  lemma MinutesForm(g1: string, u: string, g3: string, w: string)
    requires AllDigits(g1) && AllLetters(u) && AllDigits(g3) && AllLetters(w)
    requires g3 != [] || w == []
    requires Lower(u) in MINUTE_UNITS
    ensures var r, m := ParseDelay(g1 + u + g3 + w), DigitsValue(g1);
            (r.None? <==> m == 0) && (r.Some? ==> r.value == m * 60)
  {
    var m := DigitsValue(g1);
    assert ParseDelay(g1 + u + g3 + w) == SecondsOf((0, m)) by {
      assert u != [] by {
        assert |Lower(u)| > 0;
      }
      ParsedShape(g1, u, g3, w);
      UnitsDisjoint(Lower(u));
    }
  }

  /** An unknown unit is rejected whatever the numbers. */
  lemma UnknownUnitRejected(g1: string, u: string, g3: string, w: string)
    requires AllDigits(g1) && AllLetters(u) && AllDigits(g3) && AllLetters(w)
    requires (g3 != [] || w == []) && u != []
    requires Lower(u) !in HOUR_UNITS && Lower(u) !in MINUTE_UNITS
    ensures ParseDelay(g1 + u + g3 + w) == None
  {
    ParsedShape(g1, u, g3, w);
  }

  /** Spaces anywhere in the text do not change the delay. */
  lemma SpacesIgnored(s: string)
    ensures ParseDelay(StripSpaces(s)) == ParseDelay(s)
  {
  }

  // ---- The countdown ----

  /** `n` as at least two digits, with a leading zero below ten. */
  function Pad2(n: nat): (s: string)
    ensures AllDigits(s) && DigitsValue(s) == n
    ensures n < 100 ==> |s| == 2
  {
    if n < 10 then "0" + NatToString(n)
    else
      assert n < 100 ==> NatToString(n) == NatToString(n / 10) + [DigitChar(n % 10)];
      NatToString(n)
  }

  /** The button text while counting down. */
  function Render(secs: nat): string
  {
    "Post in " + NatToString(secs / 3600) + "h " + Pad2(secs / 60 % 60) + "m " + Pad2(secs % 60) + "s..."
  }

  /** The three fields shown are hours, minutes below sixty and seconds
      below sixty that add back up to the time left. */
  lemma RenderFields(secs: nat)
    ensures var h, m, s := secs / 3600, secs / 60 % 60, secs % 60;
            m < 60 && s < 60 && h * 3600 + m * 60 + s == secs
            && |Pad2(m)| == 2 && |Pad2(s)| == 2
  {
  }

  /** `NewPostPageFixer`: the running timer, the seconds left and the
      button's text. */
  class Countdown {
    var running: bool
    var secsUntilPost: nat
    var buttonTitle: string
    var messageVisible: bool
    var published: nat

    constructor ()
      ensures !running && secsUntilPost == 0 && buttonTitle == BUTTON_TITLE
      ensures !messageVisible && published == 0
    {
      running := false;
      secsUntilPost := 0;
      buttonTitle := BUTTON_TITLE;
      messageVisible := false;
      published := 0;
    }

    /** `PostTimerCountdown`: at zero the timer stops and the post is
        published; otherwise one second goes and the time left is shown. */
    method Tick()
      modifies this
      ensures old(secsUntilPost) == 0 ==>
                !running && secsUntilPost == 0 && published == old(published) + 1
                && buttonTitle == POSTING_TITLE && messageVisible == old(messageVisible)
      ensures old(secsUntilPost) > 0 ==>
                secsUntilPost == old(secsUntilPost) - 1 && buttonTitle == Render(secsUntilPost)
                && running == old(running) && published == old(published) && messageVisible == old(messageVisible)
    {
      if secsUntilPost == 0 {
        buttonTitle := POSTING_TITLE;
        running := false;
        published := published + 1;
        return;
      }
      secsUntilPost := secsUntilPost - 1;
      buttonTitle := Render(secsUntilPost);
    }

    /** A click on the button. A running timer is stopped first. `answer`
        is what the prompt returned (`None` when cancelled). An empty or
        cancelled answer only resets the title; a rejected one leaves no
        timer; an accepted one sets the delay, ticks once and starts the
        timer. */
    method Click(answer: Option<string>)
      modifies this
      ensures answer.None? || answer.value == [] ==>
                !running && buttonTitle == BUTTON_TITLE && secsUntilPost == old(secsUntilPost)
                && published == old(published) && messageVisible == (old(messageVisible) && !old(running))
      ensures answer.Some? && answer.value != [] && ParseDelay(answer.value).None? ==>
                !running && buttonTitle == old(buttonTitle) && secsUntilPost == old(secsUntilPost)
                && published == old(published) && messageVisible == (old(messageVisible) && !old(running))
      ensures answer.Some? && answer.value != [] && ParseDelay(answer.value).Some? ==>
                running && messageVisible && published == old(published)
                && secsUntilPost == ParseDelay(answer.value).value - 1
                && buttonTitle == Render(secsUntilPost)
    {
      if running {
        running := false;
        messageVisible := false;
      }
      if answer.Some? && answer.value != [] {
        var delay := ParseDelay(answer.value);
        if delay.None? {
          return;
        }
        secsUntilPost := delay.value;
        Tick();
        running := true;
        messageVisible := true;
      } else {
        buttonTitle := BUTTON_TITLE;
      }
    }
  }
}
