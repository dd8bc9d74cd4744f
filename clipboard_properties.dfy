/** Properties of the clipboard history list that saveToHistory maintains. */
module ClipboardProperties {
  import opened TextUnits
  import opened Clipboard

  /** Removing the first occurrence takes exactly one copy of `t` out. */
  lemma {:induction false} RemoveFirstMultiset(h: seq<Text>, t: Text)
    ensures multiset(RemoveFirst(h, t)) == multiset(h) - multiset{t}
  {
    if h != [] && h[0] != t {
      RemoveFirstMultiset(h[1..], t);
      assert h == [h[0]] + h[1..];
    } else if h != [] {
      assert h == [h[0]] + h[1..];
    }
  }

  /** When `k` is the first position of `t`, removal splices out exactly
      that position and keeps the others in their order. */
  lemma {:induction false} RemoveFirstAt(h: seq<Text>, t: Text, k: nat)
    requires k < |h| && h[k] == t
    requires forall j | 0 <= j < k :: h[j] != t
    ensures RemoveFirst(h, t) == h[..k] + h[k + 1..]
  {
    if k > 0 {
      RemoveFirstAt(h[1..], t, k - 1);
      assert h[1..][..k - 1] == h[1..k];
      assert h[1..][k..] == h[k + 1..];
      assert h[..k] == [h[0]] + h[1..k];
    }
  }

  /** Every saved entry is the new text or was already in the history,
      and the new text heads the list. */
  lemma SavedContents(h: seq<Text>, t: Text)
    ensures |Saved(h, t)| >= 1 && Saved(h, t)[0] == t
    ensures |Saved(h, t)| <= Capacity
    ensures forall x | x in Saved(h, t) :: x == t || x in h
  {
    RemoveFirstMultiset(h, t);
    var r := RemoveFirst(h, t);
    forall x | x in Saved(h, t)
      ensures x == t || x in h
    {
      if x != t {
        assert x in r;
        assert x in multiset(r);
      }
    }
  }

  /** Saving a text that is not yet in the history pushes it in front and
      evicts the oldest entry once five are held. */
  lemma SavedFresh(h: seq<Text>, t: Text)
    requires t !in h
    ensures Saved(h, t) == Take([t] + h, Capacity)
  {
  }

  /** Saving an entry that is already present moves it to the front: no
      second copy, nothing evicted, the others keep their relative order. */
  lemma SavedMovesToFront(h: seq<Text>, k: nat)
    requires NoDuplicates(h) && k < |h| && |h| <= Capacity
    ensures Saved(h, h[k]) == [h[k]] + h[..k] + h[k + 1..]
    ensures |Saved(h, h[k])| == |h|
  {
    RemoveFirstAt(h, h[k], k);
  }

  lemma NoDuplicatesTake(h: seq<Text>)
    requires NoDuplicates(h)
    ensures NoDuplicates(Take(h, Capacity))
  {
  }

  /** Moving position `k` to the front keeps a list free of duplicates. */
  lemma NoDuplicatesMoveToFront(h: seq<Text>, k: nat)
    requires NoDuplicates(h) && k < |h|
    ensures NoDuplicates([h[k]] + h[..k] + h[k + 1..])
  {
  }

  /** A new entry in front of a duplicate-free list keeps it duplicate-free. */
  lemma NoDuplicatesPush(h: seq<Text>, t: Text)
    requires NoDuplicates(h) && t !in h
    ensures NoDuplicates([t] + h)
  {
  }

  /** A history without duplicates stays without duplicates. */
  lemma SavedNoDuplicates(h: seq<Text>, t: Text)
    requires NoDuplicates(h)
    ensures NoDuplicates(Saved(h, t))
  {
    if t in h {
      var k :| 0 <= k < |h| && h[k] == t;
      RemoveFirstAt(h, t, k);
      NoDuplicatesMoveToFront(h, k);
      assert [t] + RemoveFirst(h, t) == [h[k]] + h[..k] + h[k + 1..];
      NoDuplicatesTake([t] + RemoveFirst(h, t));
    } else {
      NoDuplicatesPush(h, t);
      NoDuplicatesTake([t] + h);
    }
  }

  /** Saving the same text twice in a row is the same as saving it once. */
  lemma SavedIdempotent(h: seq<Text>, t: Text)
    ensures Saved(Saved(h, t), t) == Saved(h, t)
  {
  }

  /** The history after saving each text of `ts` in turn, as the clipboard
      listener does; blank texts are skipped. */
  function SaveAll(h: seq<Text>, ts: seq<Text>): seq<Text>
    decreases |ts|
  {
    if ts == [] then h
    else SaveAll(if IsBlank(ts[0]) then h else Saved(h, ts[0]), ts[1..])
  }

  function Reversed<T>(s: seq<T>): (r: seq<T>)
    ensures |r| == |s|
  {
    if s == [] then [] else Reversed(s[1..]) + [s[0]]
  }

  lemma TakeTake(a: seq<Text>, b: seq<Text>)
    ensures Take(a + Take(b, Capacity), Capacity) == Take(a + b, Capacity)
  {
  }

  /** Saving distinct, non-blank texts that are new to the history leaves
      the newest five, newest first. */
  lemma {:induction false} SaveAllDistinct(h: seq<Text>, ts: seq<Text>)
    requires |h| <= Capacity
    requires NoDuplicates(ts)
    requires forall i | 0 <= i < |ts| :: !IsBlank(ts[i]) && ts[i] !in h
    ensures SaveAll(h, ts) == Take(Reversed(ts) + h, Capacity)
    decreases |ts|
  {
    if ts != [] {
      var t0 := ts[0];
      SavedFresh(h, t0);
      var h' := Saved(h, t0);
      SavedContents(h, t0);
      forall i | 0 <= i < |ts[1..]|
        ensures !IsBlank(ts[1..][i]) && ts[1..][i] !in h'
      {
        assert ts[1..][i] == ts[i + 1] && ts[i + 1] != t0;
      }
      SaveAllDistinct(h', ts[1..]);
      TakeTake(Reversed(ts[1..]), [t0] + h);
      assert Reversed(ts) == Reversed(ts[1..]) + [t0];
      assert Reversed(ts[1..]) + ([t0] + h) == Reversed(ts) + h;
    }
  }

  /** Six distinct saves into an empty history evict the first one. */
  lemma SixSavesEvictOldest(s1: Text, s2: Text, s3: Text, s4: Text, s5: Text, s6: Text)
    requires !IsBlank(s1) && !IsBlank(s2) && !IsBlank(s3)
    requires !IsBlank(s4) && !IsBlank(s5) && !IsBlank(s6)
    requires NoDuplicates([s1, s2, s3, s4, s5, s6])
    ensures SaveAll([], [s1, s2, s3, s4, s5, s6]) == [s6, s5, s4, s3, s2]
  {
    var ts := [s1, s2, s3, s4, s5, s6];
    SaveAllDistinct([], ts);
    assert Reversed(ts[5..]) == [s6] by { assert ts[5..][1..] == ts[6..]; }
    assert Reversed(ts[4..]) == [s6, s5] by { assert ts[4..][1..] == ts[5..]; }
    assert Reversed(ts[3..]) == [s6, s5, s4] by { assert ts[3..][1..] == ts[4..]; }
    assert Reversed(ts[2..]) == [s6, s5, s4, s3] by { assert ts[2..][1..] == ts[3..]; }
    assert Reversed(ts[1..]) == [s6, s5, s4, s3, s2] by { assert ts[1..][1..] == ts[2..]; }
    assert Reversed(ts) == [s6, s5, s4, s3, s2, s1];
  }

  /** The same text saved twice in a row leaves a single entry. */
  lemma SaveTwiceSingleEntry(s: Text)
    requires !IsBlank(s)
    ensures SaveAll([], [s, s]) == [s]
  {
    var once := Saved([], s);
    assert once == [s];
    SavedIdempotent([], s);
    assert [s, s][1..] == [s] && [s][1..] == [s][..0];
    calc {
      SaveAll([], [s, s]);
      SaveAll(once, [s]);
      SaveAll(Saved(once, s), [s][..0]);
      Saved(once, s);
    }
  }

  /** Blank texts never change the history. */
  lemma {:induction false} SaveAllBlank(h: seq<Text>, ts: seq<Text>)
    requires forall i | 0 <= i < |ts| :: IsBlank(ts[i])
    ensures SaveAll(h, ts) == h
  {
    if ts != [] {
      SaveAllBlank(h, ts[1..]);
    }
  }
}
