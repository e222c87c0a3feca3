/** `compactMap` over a sequence: keep, in order, the results that are present. */
module Snapshots {
  import opened Wrappers

  function CompactMap<A, B>(s: seq<A>, f: A -> Option<B>): (r: seq<B>)
    ensures |r| <= |s|
  {
    if s == [] then []
    else
      var rest := CompactMap(s[1..], f);
      match f(s[0])
      case Some(b) => [b] + rest
      case None => rest
  }

  /** compactMap distributes over concatenation: each element is handled on its own. */
  lemma {:induction false} CompactMapAppend<A, B>(s: seq<A>, t: seq<A>, f: A -> Option<B>)
    ensures CompactMap(s + t, f) == CompactMap(s, f) + CompactMap(t, f)
  {
    if s == [] {
      assert s + t == t;
    } else {
      assert (s + t)[0] == s[0];
      assert (s + t)[1..] == s[1..] + t;
      CompactMapAppend(s[1..], t, f);
    }
  }

  /** A single element that does not map is dropped, one that maps is kept. */
  lemma CompactMapSingle<A, B>(x: A, f: A -> Option<B>)
    ensures CompactMap([x], f) == if f(x).Some? then [f(x).value] else []
  {
    assert [x][1..] == [];
  }

  /** One element that does not map, placed anywhere, changes nothing. */
  lemma {:induction false} CompactMapDropsFailure<A, B>(s: seq<A>, bad: A, t: seq<A>, f: A -> Option<B>)
    requires f(bad).None?
    ensures CompactMap(s + [bad] + t, f) == CompactMap(s + t, f)
  {
    CompactMapAppend(s + [bad], t, f);
    CompactMapAppend(s, [bad], f);
    CompactMapSingle(bad, f);
    CompactMapAppend(s, t, f);
  }

  /** Nothing is lost when every element maps. */
  lemma {:induction false} CompactMapAllPresent<A, B>(s: seq<A>, f: A -> Option<B>)
    requires forall i :: 0 <= i < |s| ==> f(s[i]).Some?
    ensures |CompactMap(s, f)| == |s|
    ensures forall i :: 0 <= i < |s| ==> CompactMap(s, f)[i] == f(s[i]).value
  {
    if s != [] {
      CompactMapAllPresent(s[1..], f);
    }
  }

  /** Every kept result comes from some element of the input. */
  lemma {:induction false} CompactMapSource<A, B>(s: seq<A>, f: A -> Option<B>, k: nat)
    requires k < |CompactMap(s, f)|
    ensures exists i :: 0 <= i < |s| && f(s[i]) == Some(CompactMap(s, f)[k])
  {
    if s != [] {
      var rest := CompactMap(s[1..], f);
      if f(s[0]).Some? {
        if k == 0 {
          assert f(s[0]) == Some(CompactMap(s, f)[k]);
        } else {
          CompactMapSource(s[1..], f, k - 1);
          var i :| 0 <= i < |s[1..]| && f(s[1..][i]) == Some(rest[k - 1]);
          assert f(s[i + 1]) == Some(CompactMap(s, f)[k]);
        }
      } else {
        CompactMapSource(s[1..], f, k);
        var i :| 0 <= i < |s[1..]| && f(s[1..][i]) == Some(rest[k]);
        assert f(s[i + 1]) == Some(CompactMap(s, f)[k]);
      }
    }
  }

  /** Every element that maps contributes its result. */
  lemma {:induction false} CompactMapKeeps<A, B>(s: seq<A>, f: A -> Option<B>, i: nat)
    requires i < |s| && f(s[i]).Some?
    ensures f(s[i]).value in CompactMap(s, f)
  {
    if i > 0 {
      CompactMapKeeps(s[1..], f, i - 1);
    }
  }
}
