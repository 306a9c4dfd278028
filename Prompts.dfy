/** What lighty_mtg.py does to a user's prompt: strip mention tags from a chat
    message (`on_message`), remove characters that are unsafe in file names
    (`process_queue`), and build the per-user storage paths of card images. */
module Prompts {
  import Text

  /** `a` can be obtained from `b` by deleting characters. */
  predicate IsSubsequence(a: string, b: string)
    decreases |b|
  {
    a == [] || (b != [] && ((a[0] == b[0] && IsSubsequence(a[1..], b[1..])) || IsSubsequence(a, b[1..])))
  }

  lemma {:induction false} SubsequenceOfSuffix(a: string, b: string, k: nat)
    requires k <= |b| && IsSubsequence(a, b[k..])
    ensures IsSubsequence(a, b)
    decreases k
  {
    if k > 0 {
      assert b[1..][k - 1..] == b[k..];
      SubsequenceOfSuffix(a, b[1..], k - 1);
    }
  }

  // ---------------------------------------------------------------------------
  // Sanitisation: re.sub(r'[<>:"/\\|?*\x00-\x1F]', '', prompt)
  // ---------------------------------------------------------------------------

  /** The characters the sanitising pattern removes. */
  predicate Unsafe(c: char)
  {
    c == '<' || c == '>' || c == ':' || c == '"' || c == '/' || c == '\\'
    || c == '|' || c == '?' || c == '*' || c <= '\U{1f}'
  }

  function Sanitize(s: string): string
  {
    if s == [] then [] else (if Unsafe(s[0]) then [] else [s[0]]) + Sanitize(s[1..])
  }

  /** The sanitised prompt has no unsafe character. */
  lemma {:induction false} SanitizeRemovesUnsafe(s: string)
    ensures forall i :: 0 <= i < |Sanitize(s)| ==> !Unsafe(Sanitize(s)[i])
  {
    if s != [] {
      SanitizeRemovesUnsafe(s[1..]);
      var t := Sanitize(s);
      var rest := Sanitize(s[1..]);
      if !Unsafe(s[0]) {
        assert t == [s[0]] + rest;
        forall i | 1 <= i < |t| ensures !Unsafe(t[i]) {
          assert t[i] == rest[i - 1];
        }
      } else {
        assert t == rest;
      }
    }
  }

  /** Sanitising only deletes characters: the order of what it keeps is the prompt's. */
  lemma {:induction false} SanitizeIsSubsequence(s: string)
    ensures IsSubsequence(Sanitize(s), s)
  {
    if s != [] {
      SanitizeIsSubsequence(s[1..]);
      var t := Sanitize(s);
      if !Unsafe(s[0]) {
        assert t[0] == s[0] && t[1..] == Sanitize(s[1..]);
      } else {
        assert t == Sanitize(s[1..]);
      }
    }
  }

  /** Every safe character is kept as often as it occurs; unsafe ones never are. */
  lemma {:induction false} SanitizeCounts(s: string, c: char)
    ensures multiset(Sanitize(s))[c] == if Unsafe(c) then 0 else multiset(s)[c]
  {
    if s != [] {
      SanitizeCounts(s[1..], c);
      assert s == [s[0]] + s[1..];
      assert multiset(s) == multiset([s[0]]) + multiset(s[1..]);
      var kept := if Unsafe(s[0]) then [] else [s[0]];
      assert multiset(Sanitize(s)) == multiset(kept) + multiset(Sanitize(s[1..]));
    }
  }

  /** A prompt without unsafe characters is left as it is. */
  lemma {:induction false} SanitizeKeepsSafe(s: string)
    requires forall i :: 0 <= i < |s| ==> !Unsafe(s[i])
    ensures Sanitize(s) == s
  {
    if s != [] {
      SanitizeKeepsSafe(s[1..]);
      assert [s[0]] + s[1..] == s;
    }
  }

  /** Sanitising twice is the same as sanitising once. */
  lemma SanitizeIdempotent(s: string)
    ensures Sanitize(Sanitize(s)) == Sanitize(s)
  {
    SanitizeRemovesUnsafe(s);
    SanitizeKeepsSafe(Sanitize(s));
  }

  // ---------------------------------------------------------------------------
  // Mention tags: re.sub(r'<[^>]+>', '', message.content).lstrip()
  // ---------------------------------------------------------------------------

  /** The pattern `<[^>]+>` matches at position 0 of `s`: a `<`, at least one
      character other than `>`, then the first `>` after them. */
  predicate TagAtStart(s: string)
  {
    |s| >= 2 && s[0] == '<' && s[1] != '>' && '>' in s[2..]
  }

  /** Index of the first `c` in `s`. */
  function IndexOf(s: string, c: char): (k: nat)
    requires c in s
    ensures k < |s| && s[k] == c && c !in s[..k]
  {
    if s[0] == c then 0
    else
      assert c in s[1..] by { assert s == [s[0]] + s[1..]; }
      var k := IndexOf(s[1..], c);
      assert s[..k + 1] == [s[0]] + s[1..][..k];
      k + 1
  }

  /** Left-to-right removal of every non-overlapping match of `<[^>]+>`. */
  function StripTags(s: string): string
    decreases |s|
  {
    if s == [] then []
    else if TagAtStart(s) then StripTags(s[IndexOf(s, '>') + 1..])
    else [s[0]] + StripTags(s[1..])
  }

  /** The pattern `<[^>]+>` matches at position i of t. */
  predicate HasTagAt(t: string, i: nat)
  {
    i < |t| && TagAtStart(t[i..])
  }

  lemma {:induction false} StripTagsChars(s: string, c: char)
    requires c !in s
    ensures c !in StripTags(s)
    decreases |s|
  {
    if s != [] {
      if TagAtStart(s) {
        StripTagsChars(s[IndexOf(s, '>') + 1..], c);
      } else {
        StripTagsChars(s[1..], c);
      }
    }
  }

  /** After the substitution no mention tag is left, and what is left is a
      subsequence of the message. */
  lemma {:induction false} StripTagsSpec(s: string)
    ensures forall i: nat :: !HasTagAt(StripTags(s), i)
    ensures IsSubsequence(StripTags(s), s)
    decreases |s|
  {
    if s != [] {
      var t := StripTags(s);
      if TagAtStart(s) {
        var j := IndexOf(s, '>') + 1;
        StripTagsSpec(s[j..]);
        SubsequenceOfSuffix(t, s, j);
      } else {
        var t' := StripTags(s[1..]);
        StripTagsSpec(s[1..]);
        assert t == [s[0]] + t';
        forall i: nat
          ensures !HasTagAt(t, i)
        {
          if i > 0 && i < |t| {
            assert t[i..] == t'[i - 1..];
            assert !HasTagAt(t', i - 1);
          } else if i == 0 && s[0] == '<' && |s| >= 2 {
            if s[1] == '>' {
              assert !TagAtStart(s[1..]);
              assert t'[0] == '>';
            } else {
              assert '>' !in s[1..] by {
                assert s[1..] == [s[1]] + s[2..];
              }
              StripTagsChars(s[1..], '>');
              assert t[2..] == t'[1..];
            }
          } else if i == 0 && s[0] == '<' {
            assert s[1..] == [];
          }
        }
      }
    }
  }

  /** A message without mention tags is left as it is by the substitution;
      in particular the substitution is idempotent. */
  lemma {:induction false} StripTagsKeepsUntagged(s: string)
    requires forall i: nat :: !HasTagAt(s, i)
    ensures StripTags(s) == s
    decreases |s|
  {
    if s != [] {
      assert !HasTagAt(s, 0);
      assert s[0..] == s;
      forall i: nat ensures !HasTagAt(s[1..], i) {
        assert !HasTagAt(s, i + 1);
        if i < |s[1..]| { assert s[1..][i..] == s[i + 1..]; }
      }
      StripTagsKeepsUntagged(s[1..]);
      assert [s[0]] + s[1..] == s;
    }
  }

  lemma StripTagsIdempotent(s: string)
    ensures StripTags(StripTags(s)) == StripTags(s)
  {
    StripTagsSpec(s);
    StripTagsKeepsUntagged(StripTags(s));
  }

  /** The chat prompt taken from a message that mentions the bot. */
  function MentionPrompt(content: string): (p: string)
    ensures p == [] || !Text.IsSpace(p[0])
  {
    Text.Lstrip(StripTags(content))
  }

  // ---------------------------------------------------------------------------
  // Storage paths of card images
  // ---------------------------------------------------------------------------

  /** Python's `s[:n]`. */
  function Take(s: string, n: nat): string
  {
    if |s| <= n then s else s[..n]
  }

  /** `users/{user}/{card_type}.{sanitized_prompt[:20]}.{n}.webp`, where n is
      the `random.randint(1, 99999999)` draw. */
  function CardImagePath(user: string, cardType: string, prompt: string, n: nat): string
  {
    "users/" + user + "/" + cardType + "." + Take(Sanitize(prompt), 20) + "." + Text.NatToString(n) + ".webp"
  }

  /** `users/{user}/{now_string}/card{k}.webp` for the k-th card of a pack. */
  function PackImagePath(user: string, stamp: string, k: nat): string
  {
    "users/" + user + "/" + stamp + "/card" + Text.NatToString(k) + ".webp"
  }

  /** Whatever the prompt holds, a card image lands directly in the user's
      directory: the file name after `users/{user}/` has no `/`, carries at
      most 20 characters of the prompt, and ends in `.webp`. */
  lemma CardImagePathInUserDirectory(user: string, cardType: string, prompt: string, n: nat)
    requires '/' !in cardType
    ensures var path := CardImagePath(user, cardType, prompt, n);
            var dir := "users/" + user + "/";
            Text.StartsWith(path, dir) && '/' !in path[|dir|..]
            && |path| <= |dir| + |cardType| + 1 + 20 + 1 + |Text.NatToString(n)| + 5
            && path[|path| - 5..] == ".webp"
  {
    var p := Take(Sanitize(prompt), 20);
    SanitizeRemovesUnsafe(prompt);
    forall i | 0 <= i < |p| ensures p[i] != '/' {
      assert p[i] == Sanitize(prompt)[i];
    }
    var digits := Text.NatToString(n);
    forall i | 0 <= i < |digits| ensures digits[i] != '/' {
      assert Text.IsDigit(digits[i]);
    }
    var path := CardImagePath(user, cardType, prompt, n);
    var dir := "users/" + user + "/";
    var file := cardType + "." + p + "." + digits + ".webp";
    assert path == dir + file;
    assert path[|dir|..] == file;
    assert path[..|dir|] == dir;
  }

  /** The three images of a pack are stored under three different names. */
  lemma PackImagePathsDistinct(user: string, stamp: string, j: nat, k: nat)
    requires 1 <= j <= 3 && 1 <= k <= 3 && j != k
    ensures PackImagePath(user, stamp, j) != PackImagePath(user, stamp, k)
  {
    var pre := "users/" + user + "/" + stamp + "/card";
    assert PackImagePath(user, stamp, j)[|pre|] == Text.NatToString(j)[0];
    assert PackImagePath(user, stamp, k)[|pre|] == Text.NatToString(k)[0];
  }
}
