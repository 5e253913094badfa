/**
 * `cleanText` of src/utils/resumeParser.ts: `**x**` becomes
 * `<strong>x</strong>`, then `*x*` becomes `<em>x</em>`, then the text is
 * trimmed. Each rewrite is a global scan with a lazy `(.*?)` group, whose `.`
 * does not match a line terminator.
 */
module ResumeMarkup {
  import opened Wrappers
  import opened JsText

  /**
   * Where the lazy group ends: the first `k` at which `t[k..]` starts with the
   * delimiter, provided no line terminator comes before it.
   */
  function FindClose(t: string, d: string): (r: Option<nat>)
    requires |d| > 0
    ensures r.Some? ==> r.value + |d| <= |t| && StartsWith(t[r.value..], d)
    ensures r.Some? ==> forall k :: 0 <= k < r.value ==> !IsLineTerminator(t[k]) && !StartsWith(t[k..], d)
    ensures r.None? ==> forall k :: 0 <= k <= |t| && StartsWith(t[k..], d) ==>
      exists j :: 0 <= j < k && IsLineTerminator(t[j])
    decreases |t|
  {
    if StartsWith(t, d) then Some(0)
    else if |t| == 0 || IsLineTerminator(t[0]) then None
    else
      TailSlices(t);
      match FindClose(t[1..], d)
      case Some(k) => Some(k + 1)
      case None => None
  }

  lemma TailSlices(t: string)
    requires |t| > 0
    ensures forall j :: 1 <= j <= |t| ==> t[1..][j - 1..] == t[j..]
  {
  }

  /**
   * `s.replace(/D(.*?)D/g, open + '$1' + close)` for the delimiter `d`: at each
   * position, a delimiter followed by its closing one (on the same line) is
   * rewritten and the scan resumes after it; otherwise one character is kept.
   */
  function Replace(s: string, d: string, open: string, close: string): (r: string)
    requires |d| > 0
    ensures forall c :: c in r ==> c in s || c in open || c in close
    decreases |s|
  {
    if |s| == 0 then ""
    else if StartsWith(s, d) && FindClose(s[|d|..], d).Some? then
      var k := FindClose(s[|d|..], d).value;
      var inner := s[|d|..|d| + k];
      var rest := Replace(s[|d| + k + |d|..], d, open, close);
      assert forall c :: c in inner ==> c in s;
      assert forall c :: c in s[|d| + k + |d|..] ==> c in s;
      open + inner + close + rest
    else
      var rest := Replace(s[1..], d, open, close);
      assert forall c :: c in s[1..] ==> c in s;
      [s[0]] + rest
  }

  const Strong := "**"
  const Star := "*"

  /** `cleanText`. */
  function CleanText(s: string): (r: string)
    ensures IsTrimmed(r)
  {
    Trim(Replace(Replace(s, Strong, "<strong>", "</strong>"), Star, "<em>", "</em>"))
  }

  /** Cleaning introduces no characters but those of the two tags. */
  lemma CleanTextCharacters(s: string)
    ensures forall c :: c in CleanText(s) ==> c in s || c in "<strong></strong><em></em>"
  {
    TrimChars(Replace(Replace(s, Strong, "<strong>", "</strong>"), Star, "<em>", "</em>"));
  }

  /** Text in which the delimiter never starts is left as it is. */
  lemma {:induction false} ReplaceWithoutDelimiter(s: string, d: string, open: string, close: string)
    requires |d| > 0
    requires forall k :: 0 <= k <= |s| ==> !StartsWith(s[k..], d)
    ensures Replace(s, d, open, close) == s
    decreases |s|
  {
    if |s| > 0 {
      assert s[0..] == s;
      assert forall k :: 1 <= k <= |s| ==> s[1..][k - 1..] == s[k..];
      ReplaceWithoutDelimiter(s[1..], d, open, close);
      assert [s[0]] + s[1..] == s;
    }
  }

  lemma NoStarNoDelimiter(s: string, d: string)
    requires |d| > 0 && d[0] == '*' && '*' !in s
    ensures forall k :: 0 <= k <= |s| ==> !StartsWith(s[k..], d)
  {
    forall k | 0 <= k <= |s|
      ensures !StartsWith(s[k..], d)
    {
      if k < |s| {
        assert s[k] in s;
        assert s[k..][0] == s[k] != d[0];
      }
    }
  }

  /** Text without `*` is only trimmed. */
  lemma CleanTextWithoutStars(s: string)
    requires '*' !in s
    ensures CleanText(s) == Trim(s)
  {
    NoStarNoDelimiter(s, Strong);
    ReplaceWithoutDelimiter(s, Strong, "<strong>", "</strong>");
    NoStarNoDelimiter(s, Star);
    ReplaceWithoutDelimiter(s, Star, "<em>", "</em>");
  }

  /** A delimited run of star-free text on one line is rewritten as a whole. */
  lemma ReplaceEnclosed(x: string, d: string, open: string, close: string)
    requires |d| > 0 && d[0] == '*' && '*' !in x
    requires forall i :: 0 <= i < |x| ==> !IsLineTerminator(x[i])
    ensures Replace(d + x + d, d, open, close) == open + x + close
  {
    var s := d + x + d;
    assert s[..|d|] == d;
    assert s[|d|..] == x + d;
    FindCloseAfterPlain(x, d);
    assert s[|d|..|d| + |x|] == x;
    assert s[|d| + |x| + |d|..] == "";
  }

  /** Tagged star-free text is left alone by the italic rewrite and by trimming. */
  lemma TaggedIsFinal(open: string, x: string, close: string)
    requires '*' !in open && '*' !in x && '*' !in close
    requires |open| > 0 && open[0] == '<' && |close| > 0 && close[|close| - 1] == '>'
    ensures Trim(Replace(open + x + close, Star, "<em>", "</em>")) == open + x + close
  {
    var t := open + x + close;
    NoStarInTagged(open, x, close);
    ReplaceWithoutStar(t, Star, "<em>", "</em>");
    TaggedIsTrimmed(t);
  }

  lemma ReplaceWithoutStar(t: string, d: string, open: string, close: string)
    requires '*' !in t && |d| > 0 && d[0] == '*'
    ensures Replace(t, d, open, close) == t
  {
    NoStarNoDelimiter(t, d);
    ReplaceWithoutDelimiter(t, d, open, close);
  }

  lemma TaggedIsTrimmed(t: string)
    requires |t| > 0 && t[0] == '<' && t[|t| - 1] == '>'
    ensures Trim(t) == t
  {
    TrimOfTrimmed(t);
  }

  /** Bold text on one line becomes a `strong` element. */
  lemma CleanTextStrong(x: string)
    requires '*' !in x
    requires forall i :: 0 <= i < |x| ==> !IsLineTerminator(x[i])
    ensures CleanText("**" + x + "**") == "<strong>" + x + "</strong>"
  {
    ReplaceEnclosed(x, Strong, "<strong>", "</strong>");
    TaggedIsFinal("<strong>", x, "</strong>");
  }

  /** Italic text on one line becomes an `em` element. */
  lemma CleanTextEm(x: string)
    requires '*' !in x
    requires forall i :: 0 <= i < |x| ==> !IsLineTerminator(x[i])
    ensures CleanText("*" + x + "*") == "<em>" + x + "</em>"
  {
    if x == [] {
      CleanTextEmptyEm();
      return;
    }
    var s := "*" + x + "*";
    var em := "<em>" + x + "</em>";
    calc {
      CleanText(s);
      Trim(Replace(Replace(s, Strong, "<strong>", "</strong>"), Star, "<em>", "</em>"));
      { NoBoldInItalic(x); ReplaceWithoutDelimiter(s, Strong, "<strong>", "</strong>"); }
      Trim(Replace(s, Star, "<em>", "</em>"));
      { ReplaceEnclosed(x, Star, "<em>", "</em>"); }
      Trim(em);
      { TaggedIsTrimmed(em); }
      em;
    }
  }

  /**
   * `**` alone is no bold run (that needs four stars), so the italic rewrite
   * turns it into an empty `em` element.
   */
  lemma CleanTextEmptyEm()
    ensures CleanText("**") == "<em></em>"
  {
    LoneBoldDelimiter();
    ReplaceEnclosed("", Star, "<em>", "</em>");
    assert Star + "" + Star == "**";
    TaggedIsTrimmed("<em></em>");
  }

  /** A single `**` has no closing delimiter, so the bold rewrite keeps it. */
  lemma LoneBoldDelimiter()
    ensures Replace("**", Strong, "<strong>", "</strong>") == "**"
  {
    var s := "**";
    assert s[|Strong|..] == "";
    assert FindClose("", Strong).None?;
    assert s[1..] == "*";
    assert !StartsWith("*", Strong);
    assert "*"[1..] == "";
    assert Replace("*", Strong, "<strong>", "</strong>") == "*";
  }

  lemma NoBoldInItalic(x: string)
    requires x != [] && '*' !in x
    ensures forall k :: 0 <= k <= |"*" + x + "*"| ==> !StartsWith(("*" + x + "*")[k..], Strong)
  {
    var s := "*" + x + "*";
    forall k | 0 <= k <= |s|
      ensures !StartsWith(s[k..], Strong)
    {
      if k == 0 {
        assert x[0] in x;
        assert s[k..][1] == x[0] != '*';
      } else if k <= |x| {
        assert x[k - 1] in x;
        assert s[k..][0] == x[k - 1] != '*';
      }
    }
  }

  lemma NoStarInTagged(open: string, x: string, close: string)
    requires '*' !in open && '*' !in x && '*' !in close
    ensures '*' !in open + x + close
  {
  }

  /** The closing delimiter right after star-free, single-line text is found at its end. */
  lemma {:induction false} FindCloseAfterPlain(x: string, d: string)
    requires |d| > 0 && d[0] == '*' && '*' !in x
    requires forall i :: 0 <= i < |x| ==> !IsLineTerminator(x[i])
    ensures FindClose(x + d, d) == Some(|x|)
    decreases |x|
  {
    var t := x + d;
    if |x| == 0 {
      assert t == d;
    } else {
      assert !StartsWith(t, d) by { assert t[0] == x[0]; }
      assert t[1..] == x[1..] + d;
      FindCloseAfterPlain(x[1..], d);
    }
  }
}
