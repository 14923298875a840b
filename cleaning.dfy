/** Cleaning of the language model's reply before it is parsed as JSON: every
    "```json" and every "```" marker is removed, each together with at most
    one newline that follows it, and the result is trimmed. */
module Cleaning {
  import opened Text

  const JsonFence := "```json"
  const Fence := "```"

  /** `s` with every occurrence of `marker`, taken left to right without
      overlap and each with at most one following newline, removed: what a
      global regular-expression replace of `marker\n?` by '' computes. */
  function StripMarker(s: string, marker: string): (r: string)
    requires marker != []
    ensures |r| <= |s|
    decreases |s|
  {
    if |marker| <= |s| && s[..|marker|] == marker then
      var rest := s[|marker|..];
      if rest != [] && rest[0] == '\n' then StripMarker(rest[1..], marker)
      else StripMarker(rest, marker)
    else if s == [] then []
    else [s[0]] + StripMarker(s[1..], marker)
  }

  /** A code-fence marker "```" starts at position `i` of `s`. */
  predicate FenceAt(s: string, i: int)
    requires 0 <= i && i + 3 <= |s|
  {
    s[i] == '`' && s[i + 1] == '`' && s[i + 2] == '`'
  }

  /** No code-fence marker occurs anywhere in `s`. */
  predicate FenceFree(s: string)
  {
    forall i :: 0 <= i && i + 3 <= |s| ==> !FenceAt(s, i)
  }

  /** The cleaned reply: both kinds of marker stripped, then trimmed. */
  function Clean(reply: string): (r: string)
    ensures FenceFree(r)
    ensures Trimmed(r)
  {
    var stripped := StripMarker(StripMarker(reply, JsonFence), Fence);
    StripFenceIsFenceFree(StripMarker(reply, JsonFence));
    TrimKeepsFenceFree(stripped);
    Trim(stripped)
  }

  /** A suffix of a fence-free string is fence-free. */
  lemma FenceFreeSuffix(s: string, lo: int)
    requires 0 <= lo <= |s|
    requires FenceFree(s)
    ensures FenceFree(s[lo..])
  {
    var t := s[lo..];
    forall i | 0 <= i && i + 3 <= |t|
      ensures !FenceAt(t, i)
    {
      assert !FenceAt(s, lo + i);
    }
  }

  /** A prefix of a fence-free string is fence-free. */
  lemma FenceFreePrefix(s: string, hi: int)
    requires 0 <= hi <= |s|
    requires FenceFree(s)
    ensures FenceFree(s[..hi])
  {
    var t := s[..hi];
    forall i | 0 <= i && i + 3 <= |t|
      ensures !FenceAt(t, i)
    {
      assert !FenceAt(s, i);
    }
  }

  /** Trimming removes characters only at the ends, so it creates no marker. */
  lemma TrimKeepsFenceFree(s: string)
    requires FenceFree(s)
    ensures FenceFree(Trim(s))
  {
    var i := SkipForward(s, 0);
    var r := Trim(s);
    FenceFreeSuffix(s, i);
    FenceFreePrefix(s[i..], |r|);
    assert s[i..][..|r|] == r;
  }

  /** Putting `c` in front of a fence-free string creates no marker unless
      `c` and the first two characters form one. */
  lemma FenceFreeCons(c: char, r: string)
    requires FenceFree(r)
    requires !(c == '`' && |r| >= 2 && r[0] == '`' && r[1] == '`')
    ensures FenceFree([c] + r)
  {
    var t := [c] + r;
    forall i | 0 <= i && i + 3 <= |t|
      ensures !FenceAt(t, i)
    {
      if i > 0 {
        assert !FenceAt(r, i - 1);
      }
    }
  }

  /** When `t` does not start with a backtick, stripping keeps its first
      character in place. */
  lemma StripKeepsFirst(t: string)
    requires t != [] && t[0] != '`'
    ensures StripMarker(t, Fence) != [] && StripMarker(t, Fence)[0] == t[0]
  {
    assert |t| < |Fence| || t[..|Fence|] != Fence;
  }

  /** When `t` does not start with two backticks, neither does its stripped form. */
  lemma StripNoLeadingPair(t: string)
    requires !(|t| >= 2 && t[0] == '`' && t[1] == '`')
    ensures var r := StripMarker(t, Fence); !(|r| >= 2 && r[0] == '`' && r[1] == '`')
  {
    if t != [] {
      if t[0] != '`' {
        StripKeepsFirst(t);
      } else {
        assert |t| < |Fence| || t[..|Fence|] != Fence;
        assert StripMarker(t, Fence) == [t[0]] + StripMarker(t[1..], Fence);
        if |t| > 1 {
          StripKeepsFirst(t[1..]);
        }
      }
    }
  }

  /** After the "```" pass no marker is left, whatever the input: a kept
      backtick can never join with kept characters around a removed marker
      to form a new one. */
  lemma {:induction false} StripFenceIsFenceFree(s: string)
    ensures FenceFree(StripMarker(s, Fence))
    decreases |s|
  {
    if |Fence| <= |s| && s[..|Fence|] == Fence {
      var rest := s[|Fence|..];
      if rest != [] && rest[0] == '\n' {
        StripFenceIsFenceFree(rest[1..]);
      } else {
        StripFenceIsFenceFree(rest);
      }
    } else if s != [] {
      StripFenceIsFenceFree(s[1..]);
      if s[0] == '`' {
        assert |s| < 3 || s[1] != '`' || s[2] != '`' by {
          if |s| >= 3 {
            assert s[..3] == [s[0], s[1], s[2]];
          }
        }
        StripNoLeadingPair(s[1..]);
      }
      FenceFreeCons(s[0], StripMarker(s[1..], Fence));
    }
  }

  /** Stripping a marker that begins with "```" leaves fence-free text as it is. */
  lemma {:induction false} StripFenceFreeIsIdentity(s: string, marker: string)
    requires |marker| >= |Fence| && marker[..|Fence|] == Fence
    requires FenceFree(s)
    ensures StripMarker(s, marker) == s
    decreases |s|
  {
    assert marker[0] == '`' && marker[1] == '`' && marker[2] == '`' by {
      assert marker[..|Fence|][0] == marker[0];
      assert marker[..|Fence|][1] == marker[1];
      assert marker[..|Fence|][2] == marker[2];
    }
    if |marker| <= |s| {
      assert !FenceAt(s, 0);
      assert s[..|marker|][0] == s[0] && s[..|marker|][1] == s[1] && s[..|marker|][2] == s[2];
    }
    if s != [] {
      FenceFreeSuffix(s, 1);
      StripFenceFreeIsIdentity(s[1..], marker);
    }
  }

  /** Cleaning an already cleaned reply changes nothing. */
  lemma CleanIdempotent(reply: string)
    ensures Clean(Clean(reply)) == Clean(reply)
  {
    var c := Clean(reply);
    StripFenceFreeIsIdentity(c, JsonFence);
    StripFenceFreeIsIdentity(c, Fence);
    TrimOfTrimmed(c);
  }

  /** A reply without any marker is only trimmed. */
  lemma CleanFenceFree(reply: string)
    requires FenceFree(reply)
    ensures Clean(reply) == Trim(reply)
  {
    StripFenceFreeIsIdentity(reply, JsonFence);
    StripFenceFreeIsIdentity(reply, Fence);
  }

  /** Text shorter than the marker cannot contain it. */
  lemma {:induction false} StripShort(s: string, marker: string)
    requires 0 < |marker| && |s| < |marker|
    ensures StripMarker(s, marker) == s
    decreases |s|
  {
    if s != [] {
      StripShort(s[1..], marker);
    }
  }

  /** A backtick-free prefix passes through a marker that starts with a
      backtick unchanged. */
  lemma {:induction false} StripKeepsPlainPrefix(x: string, t: string, marker: string)
    requires marker != [] && marker[0] == '`'
    requires forall i :: 0 <= i < |x| ==> x[i] != '`'
    ensures StripMarker(x + t, marker) == x + StripMarker(t, marker)
    decreases |x|
  {
    if x != [] {
      var s := x + t;
      assert s[0] == x[0];
      assert !(|marker| <= |s| && s[..|marker|] == marker) by {
        if |marker| <= |s| {
          assert s[..|marker|][0] == s[0];
        }
      }
      assert StripMarker(s, marker) == [s[0]] + StripMarker(s[1..], marker);
      assert s[1..] == x[1..] + t;
      StripKeepsPlainPrefix(x[1..], t, marker);
      calc {
        StripMarker(s, marker);
        [x[0]] + StripMarker(x[1..] + t, marker);
        [x[0]] + (x[1..] + StripMarker(t, marker));
        ([x[0]] + x[1..]) + StripMarker(t, marker);
        { assert [x[0]] + x[1..] == x; }
        x + StripMarker(t, marker);
      }
    } else {
      assert x + t == t;
    }
  }

  /** A reply wrapped in a JSON code block, its content on its own lines
      and free of backticks, cleans to that content trimmed. */
  lemma CleanFencedReply(x: string)
    requires forall i :: 0 <= i < |x| ==> x[i] != '`'
    ensures Clean(JsonFence + "\n" + x + "\n" + Fence) == Trim(x + "\n")
  {
    var reply := JsonFence + "\n" + x + "\n" + Fence;
    var tail := "\n" + Fence;
    assert reply[..|JsonFence|] == JsonFence;
    assert reply[|JsonFence|..] == "\n" + (x + tail);
    assert StripMarker(reply, JsonFence) == StripMarker(x + tail, JsonFence);
    StripKeepsPlainPrefix(x, tail, JsonFence);
    StripShort(tail, JsonFence);
    var once := x + tail;
    assert StripMarker(reply, JsonFence) == once;
    assert once == (x + "\n") + Fence;
    StripKeepsPlainPrefix(x + "\n", Fence, Fence);
    assert Fence[..|Fence|] == Fence && Fence[|Fence|..] == [];
    assert StripMarker(Fence, Fence) == [];
    assert StripMarker(once, Fence) == x + "\n";
  }
}
