/** The content-hash test on asset names (apps/daemon-rs/src/web_ui.rs:18-46): one pass over the name
    instead of the regular expression `[-.][0-9a-f]{16,}[-.]`, case-insensitive. */
module HashedAsset {
  import opened Sequences

  predicate IsSeparator(c: char) {
    c == '-' || c == '.'
  }

  predicate IsHex(c: char) {
    '0' <= c <= '9' || 'a' <= c <= 'f' || 'A' <= c <= 'F'
  }

  /** The two character classes, letter by letter. */
  lemma ClassesAreLetters(c: char)
    ensures IsSeparator(c) <==> c in "-."
    ensures IsHex(c) <==> c in "0123456789abcdefABCDEF"
  {
    var hex := "0123456789abcdefABCDEF";
    if '0' <= c <= '9' {
      assert hex[c as int - '0' as int] == c;
    } else if 'a' <= c <= 'f' {
      assert hex[c as int - 'a' as int + 10] == c;
    } else if 'A' <= c <= 'F' {
      assert hex[c as int - 'A' as int + 16] == c;
    }
    if c == '-' {
      assert "-."[0] == c;
    } else if c == '.' {
      assert "-."[1] == c;
    }
  }

  /** The regular expression matches the name from `i` through `j`. */
  ghost predicate MatchesAt(name: string, i: int, j: int) {
    && 0 <= i < j < |name| && j - i - 1 >= 16
    && IsSeparator(name[i]) && IsSeparator(name[j])
    && forall k :: i < k < j ==> IsHex(name[k])
  }

  /** `runStart` is where the hexadecimal run after the last separator begins, if it is unbroken. */
  ghost predicate RunInv(name: string, upto: int, runStart: Option<int>) {
    0 <= upto <= |name| &&
    match runStart
    case Some(start) =>
      && 0 < start <= upto && IsSeparator(name[start - 1]) && forall k :: start <= k < upto ==> IsHex(name[k])
    case None =>
      forall i :: 0 <= i < upto && IsSeparator(name[i]) ==> exists k :: i < k < upto && !IsHex(name[k])
  }

  method IsHashedAsset(name: string) returns (hashed: bool)
    ensures hashed <==> exists i, j :: MatchesAt(name, i, j)
  {
    var runStart: Option<int> := None;
    for i := 0 to |name|
      invariant RunInv(name, i, runStart)
      invariant forall a, b :: b < i ==> !MatchesAt(name, a, b)
    {
      var c := name[i];
      if IsSeparator(c) {
        if runStart.Some? && i - runStart.value >= 16 {
          assert MatchesAt(name, runStart.value - 1, i);
          return true;
        }
        RunEnds(name, i, runStart);
        runStart := Some(i + 1);
      } else {
        var broken := runStart.Some? && !IsHex(c);
        RunGoesOn(name, i, runStart);
        if broken {
          runStart := None;
        }
      }
    }
    return false;
  }

  /** A separator that closes a run shorter than sixteen, or no run, ends no match. */
  lemma RunEnds(name: string, i: int, runStart: Option<int>)
    requires 0 <= i < |name| && IsSeparator(name[i]) && RunInv(name, i, runStart)
    requires runStart.Some? ==> i - runStart.value < 16
    ensures forall a :: !MatchesAt(name, a, i)
  {
  }

  lemma RunGoesOn(name: string, i: int, runStart: Option<int>)
    requires 0 <= i < |name| && !IsSeparator(name[i]) && RunInv(name, i, runStart)
    ensures forall a :: !MatchesAt(name, a, i)
    ensures RunInv(name, i + 1, if runStart.Some? && !IsHex(name[i]) then None else runStart)
  {
    if runStart.Some? && !IsHex(name[i]) {
      forall a | 0 <= a < i + 1 && IsSeparator(name[a])
        ensures exists k :: a < k < i + 1 && !IsHex(name[k])
      {
        assert a < i;
      }
    } else if runStart.None? {
      forall a | 0 <= a < i + 1 && IsSeparator(name[a])
        ensures exists k :: a < k < i + 1 && !IsHex(name[k])
      {
        var k :| a < k < i && !IsHex(name[k]);
      }
    }
  }
}
