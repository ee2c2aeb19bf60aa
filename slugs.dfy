/**
 * The kebab-case slug used for branch and worktree names: lower-case, every run of
 * whitespace or underscores becomes one hyphen, every character outside `a-z0-9-`
 * is dropped, runs of hyphens collapse, and hyphens are trimmed from both ends.
 * `Slugify` is the untruncated variant of the worktree manager, `ShortSlug` the
 * variant cut to 50 characters used by the GitHub adapter and the phase executor.
 */
module Slugs {
  import opened Text

  const MaxSlugLength: nat := 50

  /** A character of the pattern `[\s_]`. */
  predicate IsSeparator(c: char) {
    IsSpace(c) || c == '_'
  }

  /** A character of the class `[a-z0-9-]`. */
  predicate IsSlugChar(c: char) {
    ('a' <= c <= 'z') || ('0' <= c <= '9') || c == '-'
  }

  predicate AllSlugChars(s: string) {
    forall i :: 0 <= i < |s| ==> IsSlugChar(s[i])
  }

  predicate NoDoubleHyphen(s: string) {
    forall i :: 0 <= i < |s| - 1 ==> !(s[i] == '-' && s[i + 1] == '-')
  }

  /** What the slug rewrites produce: the shape every branch-name suffix has. */
  predicate IsSlug(s: string) {
    AllSlugChars(s) && NoDoubleHyphen(s) && (s == [] || (s[0] != '-' && s[|s| - 1] != '-'))
  }

  /** `re.sub(r"[\s_]+", "-", s)`; `inRun` says the previous character was a separator. */
  function HyphenateFrom(s: string, inRun: bool): (r: string)
    ensures |r| <= |s|
  {
    if s == [] then []
    else if IsSeparator(s[0]) then (if inRun then [] else "-") + HyphenateFrom(s[1..], true)
    else [s[0]] + HyphenateFrom(s[1..], false)
  }

  function Hyphenate(s: string): string {
    HyphenateFrom(s, false)
  }

  /** `re.sub(r"[^a-z0-9-]", "", s)`. */
  function KeepSlugChars(s: string): (r: string)
    ensures |r| <= |s|
    ensures AllSlugChars(r)
    ensures AllSlugChars(s) ==> r == s
  {
    if s == [] then []
    else if IsSlugChar(s[0]) then [s[0]] + KeepSlugChars(s[1..])
    else KeepSlugChars(s[1..])
  }

  /** `re.sub(r"-+", "-", s)`; `inRun` says the previous character was a hyphen. */
  function CollapseFrom(s: string, inRun: bool): (r: string)
    ensures |r| <= |s|
    ensures NoDoubleHyphen(r)
    ensures inRun && r != [] ==> r[0] != '-'
    ensures AllSlugChars(s) ==> AllSlugChars(r)
  {
    if s == [] then []
    else if s[0] == '-' then (if inRun then [] else "-") + CollapseFrom(s[1..], true)
    else [s[0]] + CollapseFrom(s[1..], false)
  }

  function CollapseHyphens(s: string): string {
    CollapseFrom(s, false)
  }

  /** The worktree manager's slug (no length limit). */
  function Slugify(text: string): string {
    StripChar(CollapseHyphens(KeepSlugChars(Hyphenate(Lower(text)))), '-')
  }

  /** The slug cut to its first 50 characters (`slug[:50]`). */
  function ShortSlug(text: string): string {
    Take(Slugify(text), MaxSlugLength)
  }

  lemma SliceKeepsSlugChars(s: string, a: nat, b: nat)
    requires a <= b <= |s|
    requires AllSlugChars(s) && NoDoubleHyphen(s)
    ensures AllSlugChars(s[a..b]) && NoDoubleHyphen(s[a..b])
  {
    var t := s[a..b];
    forall i | 0 <= i < |t| - 1
      ensures !(t[i] == '-' && t[i + 1] == '-')
    {
      assert t[i] == s[a + i] && t[i + 1] == s[a + i + 1];
    }
  }

  /** Trimming the hyphens of a string in `a-z0-9-` without `--` gives a slug. */
  lemma StripHyphensIsSlug(c: string)
    requires AllSlugChars(c) && NoDoubleHyphen(c)
    ensures IsSlug(StripChar(c, '-'))
  {
    var l := StripCharLeft(c, '-');
    SliceKeepsSlugChars(c, |c| - |l|, |c|);
    var r := StripCharRight(l, '-');
    SliceKeepsSlugChars(l, 0, |r|);
  }

  /** Every slug is in `a-z0-9-`, has no `--`, and neither starts nor ends with `-`. */
  lemma SlugifyIsSlug(text: string)
    ensures IsSlug(Slugify(text))
  {
    var k := KeepSlugChars(Hyphenate(Lower(text)));
    var c := CollapseFrom(k, false);
    assert AllSlugChars(c) && NoDoubleHyphen(c);
    StripHyphensIsSlug(c);
  }

  lemma LowerOfSlug(s: string)
    requires AllSlugChars(s)
    ensures Lower(s) == s
  {
  }

  lemma {:induction false} CollapseOfSlug(s: string, inRun: bool)
    requires NoDoubleHyphen(s)
    requires inRun ==> s == [] || s[0] != '-'
    ensures CollapseFrom(s, inRun) == s
  {
    if s != [] {
      assert NoDoubleHyphen(s[1..]) by { SliceKeepsSlugCharsNoDouble(s); }
      CollapseOfSlug(s[1..], s[0] == '-');
    }
  }

  lemma SliceKeepsSlugCharsNoDouble(s: string)
    requires s != [] && NoDoubleHyphen(s)
    ensures NoDoubleHyphen(s[1..])
  {
    var t := s[1..];
    forall i | 0 <= i < |t| - 1
      ensures !(t[i] == '-' && t[i + 1] == '-')
    {
      assert t[i] == s[i + 1] && t[i + 1] == s[i + 2];
    }
  }

  lemma HyphenateOfSlug(s: string, inRun: bool)
    requires AllSlugChars(s)
    ensures HyphenateFrom(s, inRun) == s
  {
    if s != [] {
      HyphenateOfSlug(s[1..], false);
    }
  }

  /** A slug is its own slug: each rewrite leaves its own output unchanged. */
  lemma SlugifyOfSlug(s: string)
    requires IsSlug(s)
    ensures Slugify(s) == s
  {
    LowerOfSlug(s);
    HyphenateOfSlug(s, false);
    assert KeepSlugChars(s) == s;
    CollapseOfSlug(s, false);
  }

  /** Slugifying twice is slugifying once. */
  lemma SlugifyIdempotent(text: string)
    ensures Slugify(Slugify(text)) == Slugify(text)
  {
    SlugifyIsSlug(text);
    SlugifyOfSlug(Slugify(text));
  }

  /** The 50-character slug is at most 50 long, keeps the slug alphabet, has no `--`
      and does not start with `-`; it is the untruncated slug whenever that fits. */
  lemma ShortSlugShape(text: string)
    ensures |ShortSlug(text)| <= MaxSlugLength
    ensures AllSlugChars(ShortSlug(text)) && NoDoubleHyphen(ShortSlug(text))
    ensures ShortSlug(text) == [] || ShortSlug(text)[0] != '-'
    ensures ShortSlug(text) == Slugify(text) <==> |Slugify(text)| <= MaxSlugLength
  {
    var s := Slugify(text);
    SlugifyIsSlug(text);
    SliceKeepsSlugChars(s, 0, |ShortSlug(text)|);
  }

  /** The cut can leave a trailing hyphen: 49 letters, a space and one more letter. */
  lemma ShortSlugCanEndInHyphen()
    ensures var t := seq(49, _ => 'a') + " b";
            ShortSlug(t) == seq(49, _ => 'a') + "-"
  {
    var t := seq(49, _ => 'a') + " b";
    var s := seq(49, _ => 'a') + "-b";
    assert Lower(t) == t;
    assert Hyphenate(t) == s by {
      assert t[49..] == " b";
      HyphenateLetters(seq(49, _ => 'a'), " b", false);
      assert HyphenateFrom(" b", false) == "-b";
    }
    assert IsSlug(s) by {
      assert forall i :: 0 <= i < 49 ==> s[i] == 'a';
    }
    assert KeepSlugChars(s) == s;
    CollapseOfSlug(s, false);
    assert s[..50] == seq(49, _ => 'a') + "-";
  }

  /** Hyphenate passes a prefix without separators through unchanged. */
  lemma {:induction false} HyphenateLetters(p: string, rest: string, inRun: bool)
    requires p != [] && forall i :: 0 <= i < |p| ==> !IsSeparator(p[i])
    ensures HyphenateFrom(p + rest, inRun) == p + HyphenateFrom(rest, false)
    decreases |p|
  {
    var t := p + rest;
    assert t[0] == p[0];
    assert t[1..] == p[1..] + rest;
    assert HyphenateFrom(t, inRun) == [p[0]] + HyphenateFrom(p[1..] + rest, false);
    if |p| > 1 {
      HyphenateLetters(p[1..], rest, false);
      assert [p[0]] + (p[1..] + HyphenateFrom(rest, false)) == p + HyphenateFrom(rest, false);
    } else {
      assert p[1..] + rest == rest;
      assert [p[0]] == p;
    }
  }

  /** A word without separators followed by one separator character. */
  lemma HyphenateWord(w: string, c: char, rest: string, inRun: bool)
    requires w != [] && forall i :: 0 <= i < |w| ==> !IsSeparator(w[i])
    requires IsSeparator(c)
    ensures HyphenateFrom(w + [c] + rest, inRun) == w + "-" + HyphenateFrom(rest, true)
  {
    HyphenateLetters(w, [c] + rest, inRun);
    assert w + [c] + rest == w + ([c] + rest);
    assert ([c] + rest)[1..] == rest;
  }

  /** A slug passes through the last three rewrites unchanged. */
  lemma FinishOfSlug(s: string)
    requires IsSlug(s)
    ensures StripChar(CollapseHyphens(KeepSlugChars(s)), '-') == s
  {
    CollapseOfSlug(s, false);
  }

  /** A non-empty word of lower-case letters and digits. */
  predicate IsWord(w: string) {
    w != [] && forall i :: 0 <= i < |w| ==> ('a' <= w[i] <= 'z') || ('0' <= w[i] <= '9')
  }

  lemma {:induction false} HyphenateWords(words: seq<string>, inRun: bool)
    requires |words| >= 1
    requires forall k :: 0 <= k < |words| ==> IsWord(words[k])
    ensures HyphenateFrom(Join(words, " "), inRun) == Join(words, "-")
  {
    if |words| == 1 {
      HyphenateOfSlug(words[0], inRun);
    } else {
      HyphenateWord(words[0], ' ', Join(words[1..], " "), inRun);
      HyphenateWords(words[1..], true);
    }
  }

  lemma {:induction false} JoinedWordsIsSlug(words: seq<string>)
    requires |words| >= 1
    requires forall k :: 0 <= k < |words| ==> IsWord(words[k])
    ensures IsSlug(Join(words, "-"))
  {
    if |words| > 1 {
      JoinedWordsIsSlug(words[1..]);
      var w, rest := words[0], Join(words[1..], "-");
      var j := w + "-" + rest;
      assert Join(words, "-") == j;
      forall i | 0 <= i < |j| - 1
        ensures !(j[i] == '-' && j[i + 1] == '-')
      {
        if i < |w| {
          assert j[i] == w[i] || i == |w|;
        } else if i > |w| {
          assert j[i] == rest[i - |w| - 1] && j[i + 1] == rest[i - |w|];
        }
      }
      assert forall i :: 0 <= i < |j| ==> IsSlugChar(j[i]) by {
        forall i | 0 <= i < |j| ensures IsSlugChar(j[i]) {
          if i < |w| { assert j[i] == w[i]; }
          else if i > |w| { assert j[i] == rest[i - |w| - 1]; }
        }
      }
    }
  }

  /** Words of lower-case letters and digits separated by single spaces slugify to the
      same words joined by hyphens ("add user auth" becomes "add-user-auth"). */
  lemma SlugOfWords(words: seq<string>)
    requires |words| >= 1
    requires forall k :: 0 <= k < |words| ==> IsWord(words[k])
    ensures Slugify(Join(words, " ")) == Join(words, "-")
  {
    var t, s := Join(words, " "), Join(words, "-");
    assert Lower(t) == t by {
      JoinLowerCase(words);
      LowerOfNoUpper(t);
    }
    assert Hyphenate(t) == s by {
      HyphenateWords(words, false);
    }
    assert StripChar(CollapseHyphens(KeepSlugChars(s)), '-') == s by {
      JoinedWordsIsSlug(words);
      FinishOfSlug(s);
    }
  }

  lemma {:induction false} JoinLowerCase(words: seq<string>)
    requires |words| >= 1
    requires forall k :: 0 <= k < |words| ==> IsWord(words[k])
    ensures forall i :: 0 <= i < |Join(words, " ")| ==> !('A' <= Join(words, " ")[i] <= 'Z')
  {
    if |words| > 1 {
      JoinLowerCase(words[1..]);
      var w, rest := words[0], Join(words[1..], " ");
      var j := w + " " + rest;
      assert Join(words, " ") == j;
      forall i | 0 <= i < |j| ensures !('A' <= j[i] <= 'Z') {
        if i < |w| { assert j[i] == w[i]; }
        else if i > |w| { assert j[i] == rest[i - |w| - 1]; }
      }
    }
  }
}
