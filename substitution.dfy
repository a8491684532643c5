/** Placeholder substitution in flake-reference templates: Ruby's
    `String#gsub` with a literal pattern, and the `${tag}` / `${system}`
    resolution both scripts apply to every package template. */
module Substitution {

  /** `s.gsub(pat, rep)` for a literal, non-empty pattern and a replacement
      without backslashes: scan from the left, replace each occurrence found
      and resume scanning just after it. `rep` is copied as it is; the
      back-references (`\0`, `\&`, `\1`, `\\`) Ruby reads in a String
      replacement are not interpreted. */
  function ReplaceAll(s: string, pat: string, rep: string): string
    requires |pat| > 0
    decreases |s|
  {
    if |s| < |pat| then s
    else if s[..|pat|] == pat then rep + ReplaceAll(s[|pat|..], pat, rep)
    else [s[0]] + ReplaceAll(s[1..], pat, rep)
  }

  /** `pat` occurs in `s` starting at index `i`. */
  predicate OccursAt(pat: string, s: string, i: int)
  {
    0 <= i && i + |pat| <= |s| && s[i..i + |pat|] == pat
  }

  /** `s.include?(pat)` */
  ghost predicate Occurs(pat: string, s: string)
  {
    exists i :: OccursAt(pat, s, i)
  }

  /** The pieces of `s` between the occurrences of `pat` that a left-to-right
      scan finds, in order; an independent description of what `gsub` replaces. */
  function Split(s: string, pat: string): (pieces: seq<string>)
    requires |pat| > 0
    ensures |pieces| >= 1
    decreases |s|
  {
    if |s| < |pat| then [s]
    else if s[..|pat|] == pat then [""] + Split(s[|pat|..], pat)
    else
      var rest := Split(s[1..], pat);
      [[s[0]] + rest[0]] + rest[1..]
  }

  /** The pieces glued back together with `sep` between neighbours. */
  function Join(pieces: seq<string>, sep: string): string
    requires |pieces| >= 1
    decreases |pieces|
  {
    if |pieces| == 1 then pieces[0] else pieces[0] + sep + Join(pieces[1..], sep)
  }

  /** Prepending one character to the first piece prepends it to the join. */
  lemma {:induction false} JoinExtendFirst(c: char, pieces: seq<string>, sep: string)
    requires |pieces| >= 1
    ensures Join([[c] + pieces[0]] + pieces[1..], sep) == [c] + Join(pieces, sep)
  {
    var ext := [[c] + pieces[0]] + pieces[1..];
    assert ext[1..] == pieces[1..];
  }

  /** Splitting at the occurrences and joining with the pattern gives back the
      input: the pieces and the occurrences together make up the whole string. */
  lemma {:induction false} SplitJoin(s: string, pat: string)
    requires |pat| > 0
    ensures Join(Split(s, pat), pat) == s
    decreases |s|
  {
    if |s| < |pat| {
    } else if s[..|pat|] == pat {
      var rest := Split(s[|pat|..], pat);
      SplitJoin(s[|pat|..], pat);
      var pieces := [""] + rest;
      assert pieces[1..] == rest;
      assert Join(pieces, pat) == "" + pat + Join(rest, pat);
      assert s == "" + pat + s[|pat|..];
    } else {
      SplitJoin(s[1..], pat);
      JoinExtendFirst(s[0], Split(s[1..], pat), pat);
      assert s == [s[0]] + s[1..];
    }
  }

  /** `gsub` puts the replacement exactly where the scan found the pattern and
      keeps every piece in between. */
  lemma {:induction false} ReplaceIsJoin(s: string, pat: string, rep: string)
    requires |pat| > 0
    ensures ReplaceAll(s, pat, rep) == Join(Split(s, pat), rep)
    decreases |s|
  {
    if |s| < |pat| {
    } else if s[..|pat|] == pat {
      ReplaceIsJoin(s[|pat|..], pat, rep);
      var pieces := [""] + Split(s[|pat|..], pat);
      assert pieces[1..] == Split(s[|pat|..], pat);
    } else {
      ReplaceIsJoin(s[1..], pat, rep);
      JoinExtendFirst(s[0], Split(s[1..], pat), rep);
    }
  }

  /** The first piece is a prefix of the input. */
  lemma {:induction false} FirstPieceIsPrefix(s: string, pat: string)
    requires |pat| > 0
    ensures var p := Split(s, pat)[0]; |p| <= |s| && s[..|p|] == p
    decreases |s|
  {
    if |s| >= |pat| && s[..|pat|] != pat {
      FirstPieceIsPrefix(s[1..], pat);
      var rest := Split(s[1..], pat);
      var p := [s[0]] + rest[0];
      assert Split(s, pat)[0] == p;
      assert s[..|p|] == [s[0]] + s[1..][..|rest[0]|];
    }
  }

  /** No piece holds the pattern: the scan finds every occurrence, so `gsub`
      leaves none of the original ones behind. */
  lemma {:induction false} PiecesHoldNoOccurrence(s: string, pat: string)
    requires |pat| > 0
    ensures forall p :: p in Split(s, pat) ==> !Occurs(pat, p)
    decreases |s|
  {
    if |s| < |pat| {
      assert Split(s, pat) == [s];
    } else if s[..|pat|] == pat {
      PiecesHoldNoOccurrence(s[|pat|..], pat);
      assert Split(s, pat) == [""] + Split(s[|pat|..], pat);
    } else {
      var rest := Split(s[1..], pat);
      PiecesHoldNoOccurrence(s[1..], pat);
      FirstPieceIsPrefix(s[1..], pat);
      var p := [s[0]] + rest[0];
      assert rest[0] in rest;
      forall i
        ensures !OccursAt(pat, p, i)
      {
        if i < 0 || i + |pat| > |p| {
        } else if i == 0 {
          assert p[..|pat|] == s[..|pat|];
        } else {
          assert p[i..i + |pat|] == rest[0][i - 1..i - 1 + |pat|];
          assert !OccursAt(pat, rest[0], i - 1);
        }
      }
      assert !Occurs(pat, p);
      assert Split(s, pat) == [p] + rest[1..];
      forall q | q in Split(s, pat)
        ensures !Occurs(pat, q)
      {
        if q != p {
          assert q in rest;
        }
      }
    }
  }

  /** A string without the pattern comes back unchanged. */
  lemma {:induction false} AbsentUnchanged(s: string, pat: string, rep: string)
    requires |pat| > 0
    requires !Occurs(pat, s)
    ensures ReplaceAll(s, pat, rep) == s
    decreases |s|
  {
    if |s| >= |pat| {
      assert s[0..0 + |pat|] == s[..|pat|];
      assert !OccursAt(pat, s, 0);
      if Occurs(pat, s[1..]) {
        var i :| OccursAt(pat, s[1..], i);
        assert s[1..][i..i + |pat|] == s[i + 1..i + 1 + |pat|];
        assert OccursAt(pat, s, i + 1);
        assert false;
      }
      AbsentUnchanged(s[1..], pat, rep);
      assert s == [s[0]] + s[1..];
    }
  }

  const TagPlaceholder := "${tag}"
  const SystemPlaceholder := "${system}"

  /** `template.gsub('${tag}', tag).gsub('${system}', system)` */
  function Resolve(template: string, tag: string, system: string): string
  {
    ReplaceAll(ReplaceAll(template, TagPlaceholder, tag), SystemPlaceholder, system)
  }

  /** Text in front of the first character of the pattern is copied as it is. */
  lemma {:induction false} ReplaceSkipsPrefix(a: string, t: string, pat: string, rep: string)
    requires |pat| > 0
    requires pat[0] !in a
    ensures ReplaceAll(a + t, pat, rep) == a + ReplaceAll(t, pat, rep)
    decreases |a|
  {
    if a != [] {
      var s := a + t;
      if |s| >= |pat| {
        assert s[0] == a[0];
        assert s[..|pat|][0] != pat[0];
        assert s[..|pat|] != pat;
        assert ReplaceAll(s, pat, rep) == [s[0]] + ReplaceAll(s[1..], pat, rep);
        assert s[1..] == a[1..] + t;
        ReplaceSkipsPrefix(a[1..], t, pat, rep);
        assert a == [a[0]] + a[1..];
        assert ReplaceAll(s, pat, rep) == [a[0]] + (a[1..] + ReplaceAll(t, pat, rep));
      } else {
        assert ReplaceAll(s, pat, rep) == s;
        assert ReplaceAll(t, pat, rep) == t;
      }
    } else {
      assert a + t == t;
    }
  }

  /** An occurrence at the front is replaced and scanning resumes after it. */
  lemma ReplaceAtFront(t: string, pat: string, rep: string)
    requires |pat| > 0
    ensures ReplaceAll(pat + t, pat, rep) == rep + ReplaceAll(t, pat, rep)
  {
    assert (pat + t)[..|pat|] == pat;
    assert (pat + t)[|pat|..] == t;
  }

  /** The `${tag}` pass leaves a `${system}` placeholder alone. */
  lemma SystemPlaceholderSurvivesTagPass(suffix: string, tag: string)
    requires '$' !in suffix
    ensures ReplaceAll(SystemPlaceholder + suffix, TagPlaceholder, tag) == SystemPlaceholder + suffix
  {
    var s := SystemPlaceholder + suffix;
    assert s[..|TagPlaceholder|][2] != TagPlaceholder[2];
    assert s[1..] == "{system}" + suffix;
    ReplaceSkipsPrefix("{system}" + suffix, "", TagPlaceholder, tag);
    assert "{system}" + suffix + "" == "{system}" + suffix;
    assert s == ['$'] + s[1..];
  }

  /** A template with one `${tag}` followed by one `${system}` resolves to the
      template with the tag and the system put in their places, when no other
      `$` occurs in the template or the tag. */
  lemma ResolveTemplate(prefix: string, mid: string, suffix: string, tag: string, system: string)
    requires '$' !in prefix && '$' !in mid && '$' !in suffix && '$' !in tag
    ensures Resolve(prefix + TagPlaceholder + mid + SystemPlaceholder + suffix, tag, system)
         == prefix + tag + mid + system + suffix
  {
    var template := prefix + TagPlaceholder + mid + SystemPlaceholder + suffix;
    // the `${tag}` pass
    assert template == prefix + (TagPlaceholder + (mid + (SystemPlaceholder + suffix)));
    ReplaceSkipsPrefix(prefix, TagPlaceholder + (mid + (SystemPlaceholder + suffix)), TagPlaceholder, tag);
    ReplaceAtFront(mid + (SystemPlaceholder + suffix), TagPlaceholder, tag);
    ReplaceSkipsPrefix(mid, SystemPlaceholder + suffix, TagPlaceholder, tag);
    SystemPlaceholderSurvivesTagPass(suffix, tag);
    var once := ReplaceAll(template, TagPlaceholder, tag);
    assert once == (prefix + tag + mid) + (SystemPlaceholder + suffix);
    // the `${system}` pass
    assert '$' !in prefix + tag + mid;
    ReplaceSkipsPrefix(prefix + tag + mid, SystemPlaceholder + suffix, SystemPlaceholder, system);
    ReplaceAtFront(suffix, SystemPlaceholder, system);
    ReplaceSkipsPrefix(suffix, "", SystemPlaceholder, system);
    assert suffix + "" == suffix;
  }

  /** A resolved reference without any `$` has no placeholder left, so
      resolving it again gives it back unchanged, whatever the system. */
  lemma NoPlaceholderResolvesToItself(s: string, tag: string, system: string)
    requires '$' !in s
    ensures Resolve(s, tag, system) == s
  {
    ReplaceSkipsPrefix(s, "", TagPlaceholder, tag);
    ReplaceSkipsPrefix(s, "", SystemPlaceholder, system);
    assert s + "" == s;
  }
}
