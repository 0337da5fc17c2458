/**
 * The regular-expression text cleaners: clean_text (the same four
 * substitutions in the dataset-preparation code, the classifier script and
 * both classifier APIs) and clean_nepali_text with its training-length filter.
 *
 * Each substitution is written out as the left-to-right scan that re.sub
 * performs; whitespace (\s, .strip()) is str.isspace.
 */
module TextCleaning {
  import opened Wrappers
  import Text

  // ---------------------------------------------------------------- runs of non-whitespace

  /** The length of the leading run of non-whitespace characters (a greedy \S+ or \S*). */
  function NonSpaceRun(s: string): (n: nat)
    ensures n <= |s|
    ensures forall i :: 0 <= i < n ==> !Text.IsPySpace(s[i])
    ensures n < |s| ==> Text.IsPySpace(s[n])
  {
    if s == [] || Text.IsPySpace(s[0]) then 0 else 1 + NonSpaceRun(s[1..])
  }

  /**
   * The patterns whose every match runs to the end of a non-whitespace run:
   * https?://\S+ | www\.\S+ (clean_text), http\S+ | www\S+ and \S+@\S+
   * (clean_nepali_text).
   */
  datatype Pattern = Url | LooseUrl | Email

  predicate StartsWithThen(s: string, prefix: string)
  {
    |s| > |prefix| && s[..|prefix|] == prefix && !Text.IsPySpace(s[|prefix|])
  }

  /** Whether a match of the pattern starts at the front of s. */
  predicate MatchAt(p: Pattern, s: string)
  {
    match p
    case Url => StartsWithThen(s, "https://") || StartsWithThen(s, "http://") || StartsWithThen(s, "www.")
    case LooseUrl => StartsWithThen(s, "http") || StartsWithThen(s, "www")
    case Email => exists j :: 0 < j < NonSpaceRun(s) - 1 && s[j] == '@'
  }

  lemma StartsWithThenRun(s: string, prefix: string)
    requires StartsWithThen(s, prefix) && forall i :: 0 <= i < |prefix| ==> !Text.IsPySpace(prefix[i])
    ensures NonSpaceRun(s) > |prefix|
  {
    assert forall i :: 0 <= i < |prefix| ==> s[i] == s[..|prefix|][i];
  }

  /** A match always covers a non-empty run. */
  lemma MatchCoversRun(p: Pattern, s: string)
    requires MatchAt(p, s)
    ensures NonSpaceRun(s) > 0
  {
    match p
    case Url =>
      if StartsWithThen(s, "https://") { StartsWithThenRun(s, "https://"); }
      else if StartsWithThen(s, "http://") { StartsWithThenRun(s, "http://"); }
      else { StartsWithThenRun(s, "www."); }
    case LooseUrl =>
      if StartsWithThen(s, "http") { StartsWithThenRun(s, "http"); }
      else { StartsWithThenRun(s, "www"); }
    case Email =>
  }

  /** re.sub(pattern, '', s): each match, scanning left to right, deletes its whole run. */
  function RemoveMatches(p: Pattern, s: string): (r: string)
    ensures |r| <= |s|
    decreases |s|
  {
    if s == [] then []
    else if MatchAt(p, s) then
      MatchCoversRun(p, s);
      RemoveMatches(p, s[NonSpaceRun(s)..])
    else [s[0]] + RemoveMatches(p, s[1..])
  }

  /** t's leading run begins with u's leading run. */
  predicate RunPrefix(u: string, t: string)
  {
    NonSpaceRun(u) <= NonSpaceRun(t) && u[..NonSpaceRun(u)] == t[..NonSpaceRun(u)]
  }

  /** Removing matches never lengthens the leading run, nor changes its characters. */
  lemma {:induction false} RemoveMatchesRun(p: Pattern, t: string)
    ensures RunPrefix(RemoveMatches(p, t), t)
    decreases |t|
  {
    if t != [] {
      if MatchAt(p, t) {
        MatchLeavesNoRun(p, t);
      } else if !Text.IsPySpace(t[0]) {
        RemoveMatchesRun(p, t[1..]);
        KeptCharExtendsRun(p, t);
      }
    }
  }

  /** After a match the text resumes at whitespace (or ends), so no run is left in front. */
  lemma MatchLeavesNoRun(p: Pattern, t: string)
    requires MatchAt(p, t)
    ensures NonSpaceRun(RemoveMatches(p, t)) == 0
  {
    MatchCoversRun(p, t);
    var rest := t[NonSpaceRun(t)..];
    if rest != [] {
      assert Text.IsPySpace(rest[0]);
      assert !MatchAt(p, rest) by { if MatchAt(p, rest) { MatchCoversRun(p, rest); } }
      assert RemoveMatches(p, t) == [rest[0]] + RemoveMatches(p, rest[1..]);
    }
  }

  /** A kept first character extends the run of the rest by one. */
  lemma KeptCharExtendsRun(p: Pattern, t: string)
    requires t != [] && !MatchAt(p, t) && !Text.IsPySpace(t[0])
    requires RunPrefix(RemoveMatches(p, t[1..]), t[1..])
    ensures RunPrefix(RemoveMatches(p, t), t)
  {
    RemoveMatchesKept(p, t);
    assert t == [t[0]] + t[1..];
    ConsRunPrefix(t[0], RemoveMatches(p, t[1..]), t[1..]);
  }

  /** Where no match starts, the first character is kept. */
  lemma RemoveMatchesKept(p: Pattern, t: string)
    requires t != [] && !MatchAt(p, t)
    ensures RemoveMatches(p, t) == [t[0]] + RemoveMatches(p, t[1..])
  {
  }

  lemma ConsRunPrefix(c: char, u: string, v: string)
    requires !Text.IsPySpace(c) && RunPrefix(u, v)
    ensures RunPrefix([c] + u, [c] + v)
  {
    assert ([c] + u)[1..] == u;
    assert ([c] + v)[1..] == v;
    var n := NonSpaceRun([c] + u);
    forall i | 0 <= i < n
      ensures ([c] + u)[i] == ([c] + v)[i]
    {
      if i > 0 {
        assert u[..NonSpaceRun(u)][i - 1] == v[..NonSpaceRun(u)][i - 1];
      }
    }
  }

  lemma RunPrefixStartsWithThen(u: string, v: string, prefix: string)
    requires RunPrefix(u, v) && StartsWithThen(u, prefix) && NonSpaceRun(u) > |prefix|
    ensures StartsWithThen(v, prefix)
  {
    assert u[..|prefix| + 1] == v[..|prefix| + 1];
    assert u[..|prefix|] == u[..|prefix| + 1][..|prefix|];
    assert v[..|prefix|] == v[..|prefix| + 1][..|prefix|];
  }

  /** A match depends only on the leading run, and survives that run growing. */
  lemma MatchOnRun(p: Pattern, u: string, v: string)
    requires RunPrefix(u, v) && MatchAt(p, u)
    ensures MatchAt(p, v)
  {
    match p
    case Url =>
      if StartsWithThen(u, "https://") { StartsWithThenRun(u, "https://"); RunPrefixStartsWithThen(u, v, "https://"); }
      else if StartsWithThen(u, "http://") { StartsWithThenRun(u, "http://"); RunPrefixStartsWithThen(u, v, "http://"); }
      else { StartsWithThenRun(u, "www."); RunPrefixStartsWithThen(u, v, "www."); }
    case LooseUrl =>
      if StartsWithThen(u, "http") { StartsWithThenRun(u, "http"); RunPrefixStartsWithThen(u, v, "http"); }
      else { StartsWithThenRun(u, "www"); RunPrefixStartsWithThen(u, v, "www"); }
    case Email =>
      var j :| 0 < j < NonSpaceRun(u) - 1 && u[j] == '@';
      assert u[..NonSpaceRun(u)][j] == v[..NonSpaceRun(u)][j];
  }

  /** No match of the pattern starts at any position of s. */
  predicate NoMatchAnywhere(p: Pattern, s: string)
  {
    s == [] || (!MatchAt(p, s) && NoMatchAnywhere(p, s[1..]))
  }

  /** No match of the pattern is left anywhere in the result. */
  lemma {:induction false} NoMatchLeft(p: Pattern, s: string)
    ensures NoMatchAnywhere(p, RemoveMatches(p, s))
    decreases |s|
  {
    var r := RemoveMatches(p, s);
    if s != [] {
      if MatchAt(p, s) {
        MatchCoversRun(p, s);
        NoMatchLeft(p, s[NonSpaceRun(s)..]);
      } else {
        var x := RemoveMatches(p, s[1..]);
        NoMatchLeft(p, s[1..]);
        assert r == [s[0]] + x;
        assert r[1..] == x;
        NoMatchAfterKept(p, s);
      }
    }
  }

  /** A character kept before the leftovers starts no match when it started none in s. */
  lemma NoMatchAfterKept(p: Pattern, s: string)
    requires s != [] && !MatchAt(p, s)
    ensures !MatchAt(p, [s[0]] + RemoveMatches(p, s[1..]))
  {
    var x := RemoveMatches(p, s[1..]);
    var r := [s[0]] + x;
    assert r[1..] == x;
    if MatchAt(p, r) {
      MatchCoversRun(p, r);
      assert !Text.IsPySpace(s[0]);
      RemoveMatchesRun(p, s[1..]);
      KeptCharExtendsRun(p, s);
      RemoveMatchesKept(p, s);
      MatchOnRun(p, r, s);
    }
  }

  /** Text outside the matches is kept in order: the result is a subsequence of s. */
  lemma {:induction false} RemoveMatchesKeepsPlainText(p: Pattern, s: string)
    requires NoMatchAnywhere(p, s)
    ensures RemoveMatches(p, s) == s
    decreases |s|
  {
    if s != [] {
      RemoveMatchesKeepsPlainText(p, s[1..]);
    }
  }

  // ---------------------------------------------------------------- <.*?>

  /** No '>' before the first newline: a '<' here opens no tag, since . does not match a newline. */
  predicate Unclosed(t: string)
  {
    t == [] || t[0] == '\n' || (t[0] != '>' && Unclosed(t[1..]))
  }

  /** The index of the '>' closing the lazy match of <.*?> at the front of s, scanning from j. */
  function TagClose(s: string, j: nat): (r: Option<nat>)
    ensures r.Some? ==> j <= r.value < |s| && s[r.value] == '>'
    decreases |s| - j
  {
    if j >= |s| || s[j] == '\n' then None
    else if s[j] == '>' then Some(j)
    else TagClose(s, j + 1)
  }

  lemma {:induction false} TagCloseUnclosed(s: string, j: nat)
    requires j <= |s|
    ensures TagClose(s, j).None? <==> Unclosed(s[j..])
    decreases |s| - j
  {
    if j < |s| && s[j] != '\n' && s[j] != '>' {
      TagCloseUnclosed(s, j + 1);
      assert s[j..][1..] == s[j + 1..];
    }
  }

  predicate TagAt(s: string)
  {
    |s| > 0 && s[0] == '<' && TagClose(s, 1).Some?
  }

  /** re.sub(r'<.*?>', '', s). */
  function RemoveTags(s: string): (r: string)
    ensures |r| <= |s|
    decreases |s|
  {
    if s == [] then []
    else if TagAt(s) then RemoveTags(s[TagClose(s, 1).value + 1..])
    else [s[0]] + RemoveTags(s[1..])
  }

  lemma {:induction false} UnclosedSurvives(t: string)
    requires Unclosed(t)
    ensures Unclosed(RemoveTags(t))
    decreases |t|
  {
    if t != [] && t[0] != '\n' {
      if TagAt(t) {
        TagCloseUnclosed(t, 1);
        assert false;
      }
      UnclosedSurvives(t[1..]);
      assert RemoveTags(t)[1..] == RemoveTags(t[1..]);
    }
  }

  predicate NoTagAnywhere(s: string)
  {
    s == [] || (!TagAt(s) && NoTagAnywhere(s[1..]))
  }

  /** No tag is left anywhere in the result of RemoveTags. */
  lemma {:induction false} NoTagLeft(s: string)
    ensures NoTagAnywhere(RemoveTags(s))
    decreases |s|
  {
    var r := RemoveTags(s);
    if s != [] {
      if TagAt(s) {
        NoTagLeft(s[TagClose(s, 1).value + 1..]);
      } else {
        var x := RemoveTags(s[1..]);
        NoTagLeft(s[1..]);
        assert r == [s[0]] + x;
        assert r[1..] == x;
        if s[0] == '<' {
          TagCloseUnclosed(s, 1);
          UnclosedSurvives(s[1..]);
          TagCloseUnclosed(r, 1);
        }
      }
    }
  }

  // ---------------------------------------------------------------- whitespace

  /** re.sub(r'\n', ' ', s). */
  function NewlinesToSpaces(s: string): (r: string)
    ensures |r| == |s|
    ensures forall i :: 0 <= i < |s| ==> r[i] == if s[i] == '\n' then ' ' else s[i]
  {
    seq(|s|, i requires 0 <= i < |s| => if s[i] == '\n' then ' ' else s[i])
  }

  /** Every whitespace character is a plain space, and no two are adjacent. */
  predicate SingleSpaced(s: string)
  {
    s == [] ||
      ((Text.IsPySpace(s[0]) ==> s[0] == ' ' && (|s| > 1 ==> !Text.IsPySpace(s[1])))
       && SingleSpaced(s[1..]))
  }

  /** re.sub(r'\s+', ' ', s): each run of whitespace becomes one space. */
  function CollapseSpaces(s: string): (r: string)
    ensures SingleSpaced(r)
    ensures |r| <= |s|
    ensures |s| > 0 ==> |r| > 0 && (Text.IsPySpace(r[0]) <==> Text.IsPySpace(s[0]))
    decreases |s|
  {
    if s == [] then []
    else if Text.IsPySpace(s[0]) then
      var r := [' '] + CollapseSpaces(Text.TrimStart(s[1..], Text.IsPySpace));
      assert r[1..] == CollapseSpaces(Text.TrimStart(s[1..], Text.IsPySpace));
      r
    else
      var r := [s[0]] + CollapseSpaces(s[1..]);
      assert r[1..] == CollapseSpaces(s[1..]);
      r
  }

  lemma {:induction false} SingleSpacedSuffix(s: string, k: nat)
    requires SingleSpaced(s) && k <= |s|
    ensures SingleSpaced(s[k..])
    decreases k
  {
    if k > 0 {
      SingleSpacedSuffix(s[1..], k - 1);
      assert s[1..][k - 1..] == s[k..];
    }
  }

  lemma {:induction false} SingleSpacedPrefix(s: string, k: nat)
    requires SingleSpaced(s) && k <= |s|
    ensures SingleSpaced(s[..k])
    decreases k
  {
    if k > 0 {
      SingleSpacedPrefix(s[1..], k - 1);
      assert s[..k][1..] == s[1..][..k - 1];
    }
  }

  /** .strip() returns a contiguous slice of its input, so it keeps only characters the input had. */
  lemma StripKeepsNepali(t: string)
    requires forall i :: 0 <= i < |t| ==> NepaliKept(t[i])
    ensures forall i :: 0 <= i < |Text.PyStrip(t)| ==> NepaliKept(Text.PyStrip(t)[i])
  {
    var e := Text.TrimEnd(t, Text.IsPySpace);
    var r := Text.PyStrip(t);
    assert e == t[..|e|];
    assert r == e[|e| - |r|..];
    forall i | 0 <= i < |r|
      ensures NepaliKept(r[i])
    {
      assert r[i] == t[|e| - |r| + i];
    }
  }

  /** Single-spaced text is unchanged by the whitespace-collapsing step. */
  lemma {:induction false} CollapseKeepsSingleSpaced(s: string)
    requires SingleSpaced(s)
    ensures CollapseSpaces(s) == s
    decreases |s|
  {
    if s != [] {
      if Text.IsPySpace(s[0]) {
        SpaceBeforeWord(s);
      }
      CollapseKeepsSingleSpaced(s[1..]);
    }
  }

  /** In single-spaced text a space is followed by a non-space, so nothing after it is trimmed. */
  lemma SpaceBeforeWord(s: string)
    requires SingleSpaced(s) && s != [] && Text.IsPySpace(s[0])
    ensures SingleSpaced(s[1..])
    ensures Text.TrimStart(s[1..], Text.IsPySpace) == s[1..]
  {
    if |s| > 1 {
      assert !Text.IsPySpace(s[1..][0]);
    }
  }

  lemma StripKeepsTrimmed(s: string)
    requires |s| > 0 && !Text.IsPySpace(s[0]) && !Text.IsPySpace(s[|s| - 1])
    ensures Text.PyStrip(s) == s
  {
  }

  /** Without an 'h' or a 'w' there is no URL to remove. */
  lemma {:induction false} NoUrlLetters(p: Pattern, s: string)
    requires p != Email
    requires forall i :: 0 <= i < |s| ==> s[i] != 'h' && s[i] != 'w'
    ensures NoMatchAnywhere(p, s)
    decreases |s|
  {
    if s != [] {
      assert s[0] != 'h' && s[0] != 'w';
      NoUrlLetters(p, s[1..]);
    }
  }

  /** Without an '@' there is no email-like token to remove. */
  lemma {:induction false} NoAtSign(s: string)
    requires forall i :: 0 <= i < |s| ==> s[i] != '@'
    ensures NoMatchAnywhere(Email, s)
    decreases |s|
  {
    if s != [] {
      NoAtSign(s[1..]);
    }
  }

  /** Without a '<' no tag starts anywhere. */
  lemma {:induction false} NoOpenAngle(s: string)
    requires forall i :: 0 <= i < |s| ==> s[i] != '<'
    ensures NoTagAnywhere(s)
    decreases |s|
  {
    if s != [] {
      NoOpenAngle(s[1..]);
    }
  }

  /** Text in which no tag starts is unchanged by RemoveTags. */
  lemma {:induction false} RemoveTagsKeepsPlainText(s: string)
    requires NoTagAnywhere(s)
    ensures RemoveTags(s) == s
    decreases |s|
  {
    if s != [] {
      RemoveTagsKeepsPlainText(s[1..]);
    }
  }

  // ---------------------------------------------------------------- clean_text

  /** clean_text: URLs, then tags, then newlines, then whitespace runs, then strip. */
  function CleanText(s: string): string
  {
    Text.PyStrip(CollapseSpaces(NewlinesToSpaces(RemoveTags(RemoveMatches(Url, s)))))
  }

  /**
   * The cleaned text has no surrounding whitespace, and inside it every
   * whitespace character is a single plain space between words.
   */
  lemma CleanTextShape(s: string)
    ensures var r := CleanText(s);
      && SingleSpaced(r)
      && (|r| > 0 ==> !Text.IsPySpace(r[0]) && !Text.IsPySpace(r[|r| - 1]))
  {
    var c := CollapseSpaces(NewlinesToSpaces(RemoveTags(RemoveMatches(Url, s))));
    var e := Text.TrimEnd(c, Text.IsPySpace);
    var r := Text.TrimStart(e, Text.IsPySpace);
    SingleSpacedPrefix(c, |e|);
    assert c[..|e|] == e;
    SingleSpacedSuffix(e, |e| - |r|);
    if |r| > 0 {
      assert r[|r| - 1] == e[|e| - 1];
    }
  }

  /** A text made of one URL passes a non-empty check yet cleans to the empty string. */
  lemma UrlOnlyCleansToEmpty(w: string)
    requires w != [] && forall i :: 0 <= i < |w| ==> !Text.IsPySpace(w[i])
    ensures Text.PyStrip("http://" + w) == "http://" + w
    ensures CleanText("http://" + w) == ""
  {
    var u := "http://" + w;
    assert forall i :: 0 <= i < |u| ==> !Text.IsPySpace(u[i]) by {
      forall i | 0 <= i < |u|
        ensures !Text.IsPySpace(u[i])
      {
        if i >= 7 { assert u[i] == w[i - 7]; }
      }
    }
    Text.StripKeeps(u);
    UrlRunRemoved(u);
    assert RemoveMatches(Url, u) == [];
    assert CleanText(u) == Text.PyStrip(CollapseSpaces(NewlinesToSpaces(RemoveTags([]))));
  }

  /** A whitespace-free text that starts a URL is removed whole. */
  lemma UrlRunRemoved(u: string)
    requires |u| > 7 && u[..7] == "http://"
    requires forall i :: 0 <= i < |u| ==> !Text.IsPySpace(u[i])
    ensures RemoveMatches(Url, u) == []
  {
    assert MatchAt(Url, u) by {
      assert StartsWithThen(u, "http://");
    }
    WholeRun(u);
    assert u[|u|..] == [];
  }

  /** A text without whitespace is one run. */
  lemma {:induction false} WholeRun(u: string)
    requires forall i :: 0 <= i < |u| ==> !Text.IsPySpace(u[i])
    ensures NonSpaceRun(u) == |u|
    decreases |u|
  {
    if u != [] {
      WholeRun(u[1..]);
    }
  }


  /**
   * Newlines become spaces only after tags are removed, so a '<' whose '>'
   * lies past a newline survives and the result holds a complete tag.
   */
  lemma TagAcrossNewlineSurvives()
    ensures CleanText("<a\nb>") == "<a b>"
    ensures TagAt(CleanText("<a\nb>"))
  {
    TagAcrossNewlineNotRemoved();
    var t := "<a b>";
    assert NewlinesToSpaces("<a\nb>") == t;
    TagAcrossNewlineJoined();
    JoinedIsTag();
  }

  /** Neither a URL nor a tag is removed from "<a\nb>": the '>' lies past the newline. */
  lemma TagAcrossNewlineNotRemoved()
    ensures RemoveTags(RemoveMatches(Url, "<a\nb>")) == "<a\nb>"
  {
    var s := "<a\nb>";
    NoUrlLetters(Url, s);
    RemoveMatchesKeepsPlainText(Url, s);
    assert TagClose(s, 1).None?;
    NoOpenAngle(s[1..]);
    RemoveTagsKeepsPlainText(s);
  }

  /** Once the newline is a space, "<a b>" is kept whole and is a tag. */
  lemma TagAcrossNewlineJoined()
    ensures Text.PyStrip(CollapseSpaces("<a b>")) == "<a b>"
  {
    var t := "<a b>";
    assert SingleSpaced(t) by {
      assert SingleSpaced(t[4..][1..]);
      assert SingleSpaced(t[3..][1..]);
      assert SingleSpaced(t[2..][1..]);
      assert SingleSpaced(t[1..][1..]);
      assert SingleSpaced(t[1..]);
    }
    CollapseKeepsSingleSpaced(t);
    StripKeepsTrimmed(t);
  }

  /** "<a b>" opens a tag that its '>' closes. */
  lemma JoinedIsTag()
    ensures TagAt("<a b>")
  {
    assert TagClose("<a b>", 1) == Some(4);
  }

  // ---------------------------------------------------------------- clean_nepali_text

  /** The characters the last substitution keeps: ASCII letters and digits, Devanagari, whitespace, .,!?;:()"'- */
  predicate NepaliKept(c: char)
  {
    || 'A' <= c <= 'Z' || 'a' <= c <= 'z' || '0' <= c <= '9'
    || '\U{0900}' <= c <= '\U{097F}'
    || Text.IsPySpace(c)
    || c in ".,!?;:()\"'-"
  }

  function KeepNepali(s: string): (r: string)
    ensures |r| <= |s|
    ensures forall i :: 0 <= i < |r| ==> NepaliKept(r[i])
  {
    if s == [] then [] else (if NepaliKept(s[0]) then [s[0]] else []) + KeepNepali(s[1..])
  }

  /**
   * clean_nepali_text: None (NaN) gives ""; otherwise URLs, then
   * email-like tokens, then whitespace runs, then disallowed characters
   * are removed, and the ends stripped.
   */
  function CleanNepaliText(text: Option<string>): (r: string)
    ensures forall i :: 0 <= i < |r| ==> NepaliKept(r[i])
  {
    match text
    case None => ""
    case Some(s) =>
      var t := KeepNepali(CollapseSpaces(RemoveMatches(Email, RemoveMatches(LooseUrl, s))));
      StripKeepsNepali(t);
      Text.PyStrip(t)
  }

  /** Email removal runs after URL removal, so no email-like token survives that step. */
  lemma NoEmailAfterEmailStep(s: string)
    ensures NoMatchAnywhere(Email, RemoveMatches(Email, RemoveMatches(LooseUrl, s)))
  {
    NoMatchLeft(Email, RemoveMatches(LooseUrl, s));
  }

  lemma SpacedHashSingleSpaced(s: string)
    requires |s| == 5 && s[1] == ' ' && s[2] == '#' && s[3] == ' '
    requires '0' <= s[0] <= '9' && '0' <= s[4] <= '9'
    ensures SingleSpaced(s)
  {
    assert SingleSpaced(s[4..][1..]);
    assert SingleSpaced(s[3..][1..]);
    assert SingleSpaced(s[2..][1..]);
    assert SingleSpaced(s[1..][1..]);
    assert SingleSpaced(s[1..]);
  }

  lemma SpacedHashKept(s: string)
    requires |s| == 5 && s[1] == ' ' && s[2] == '#' && s[3] == ' '
    requires '0' <= s[0] <= '9' && '0' <= s[4] <= '9'
    ensures KeepNepali(s) == [s[0], ' ', ' ', s[4]]
  {
    assert KeepNepali(s[4..]) == [s[4]];
    assert KeepNepali(s[3..]) == [' ', s[4]];
    assert !NepaliKept('#');
    assert KeepNepali(s[2..]) == [' ', s[4]];
    assert KeepNepali(s[1..]) == [' ', ' ', s[4]];
  }

  /**
   * Deleting characters after collapsing can leave two spaces in a row:
   * "x # y" for digits x and y cleans to "x  y".
   */
  lemma DoubleSpaceSurvives(s: string)
    requires |s| == 5 && s[1] == ' ' && s[2] == '#' && s[3] == ' '
    requires '0' <= s[0] <= '9' && '0' <= s[4] <= '9'
    ensures CleanNepaliText(Some(s)) == [s[0], ' ', ' ', s[4]]
  {
    var t := [s[0], ' ', ' ', s[4]];
    assert KeepNepali(CollapseSpaces(RemoveMatches(Email, RemoveMatches(LooseUrl, s)))) == t by {
      SpacedHashNotRemoved(s);
      SpacedHashCollapsedKept(s);
    }
    StripKeepsTrimmed(t);
  }

  lemma SpacedHashCollapsedKept(s: string)
    requires |s| == 5 && s[1] == ' ' && s[2] == '#' && s[3] == ' '
    requires '0' <= s[0] <= '9' && '0' <= s[4] <= '9'
    ensures KeepNepali(CollapseSpaces(s)) == [s[0], ' ', ' ', s[4]]
  {
    SpacedHashSingleSpaced(s);
    CollapseKeepsSingleSpaced(s);
    SpacedHashKept(s);
  }

  /** "d # d" holds no URL and no email-like token. */
  lemma SpacedHashNotRemoved(s: string)
    requires |s| == 5 && s[1] == ' ' && s[2] == '#' && s[3] == ' '
    requires '0' <= s[0] <= '9' && '0' <= s[4] <= '9'
    ensures RemoveMatches(Email, RemoveMatches(LooseUrl, s)) == s
  {
    NoUrlLetters(LooseUrl, s);
    RemoveMatchesKeepsPlainText(LooseUrl, s);
    NoAtSign(s);
    RemoveMatchesKeepsPlainText(Email, s);
  }

  /** load_and_prepare_data keeps a row only if its cleaned text is longer than 10 characters. */
  predicate KeptForTraining(text: Option<string>)
  {
    |CleanNepaliText(text)| > 10
  }

  /** A missing text, or one no longer than 10 characters, never reaches training. */
  lemma ShortTextsDropped(text: Option<string>)
    ensures text.None? ==> !KeptForTraining(text)
    ensures text.Some? && |text.value| <= 10 ==> !KeptForTraining(text)
  {
    if text.Some? {
      var s := text.value;
      var t := KeepNepali(CollapseSpaces(RemoveMatches(Email, RemoveMatches(LooseUrl, s))));
      assert |Text.PyStrip(t)| <= |t|;
    }
  }
}
