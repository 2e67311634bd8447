/**
 * The linear scans both stores run over their ordered collections:
 * `Array.prototype.findIndex` / `find` by id, and the one-element `splice`
 * that takes the first match out. Elements are compared only through a key
 * function, so the same scan serves todolists and tasks.
 */
module Scan {

  /**
   * Position of the first element of `s` whose key is `id`, or -1 when none
   * has it (`IndexOfIsFirst` states "first" and "none").
   */
  function IndexOf<T>(s: seq<T>, key: T -> string, id: string): (r: int)
    ensures -1 <= r < |s|
    ensures 0 <= r ==> key(s[r]) == id
  {
    if s == [] then -1
    else if key(s[0]) == id then 0
    else
      var k := IndexOf(s[1..], key, id);
      if k == -1 then -1 else k + 1
  }

  /** -1 means no element has the key; any other result is preceded by no element with the key. */
  lemma {:induction false} IndexOfIsFirst<T>(s: seq<T>, key: T -> string, id: string)
    ensures IndexOf(s, key, id) == -1 <==> forall j :: 0 <= j < |s| ==> key(s[j]) != id
    ensures forall j :: 0 <= j < IndexOf(s, key, id) ==> key(s[j]) != id
  {
    if s != [] && key(s[0]) != id {
      IndexOfIsFirst(s[1..], key, id);
      assert forall j :: 1 <= j < |s| ==> s[j] == s[1..][j - 1];
    }
  }

  /** `s.findIndex(x => key(x) === id)`, scanning from the front. */
  method FindIndex<T>(s: seq<T>, key: T -> string, id: string) returns (r: int)
    ensures r == IndexOf(s, key, id)
  {
    var i := 0;
    while i < |s|
      invariant 0 <= i <= |s|
      invariant forall j :: 0 <= j < i ==> key(s[j]) != id
    {
      if key(s[i]) == id {
        IndexOfIsFirst(s, key, id);
        return i;
      }
      i := i + 1;
    }
    IndexOfIsFirst(s, key, id);
    return -1;
  }

  /** `s` without its first element whose key is `id`; `s` itself when none has it. */
  function RemoveFirst<T>(s: seq<T>, key: T -> string, id: string): seq<T>
  {
    if s == [] then []
    else if key(s[0]) == id then s[1..]
    else [s[0]] + RemoveFirst(s[1..], key, id)
  }

  /**
   * Removing the first match is the `findIndex` + `splice(index, 1)` pair:
   * the elements before and after the match keep their relative order, and
   * nothing changes when no element matches.
   */
  lemma {:induction false} RemoveFirstIsSplice<T>(s: seq<T>, key: T -> string, id: string)
    ensures var k := IndexOf(s, key, id);
      RemoveFirst(s, key, id) == if k == -1 then s else s[..k] + s[k + 1..]
  {
    if s == [] {
      assert IndexOf(s, key, id) == -1;
    } else if key(s[0]) == id {
      assert IndexOf(s, key, id) == 0;
      assert s[..0] + s[1..] == s[1..];
    } else {
      var t := s[1..];
      RemoveFirstIsSplice(t, key, id);
      var k := IndexOf(t, key, id);
      assert RemoveFirst(s, key, id) == [s[0]] + RemoveFirst(t, key, id);
      if k == -1 {
        assert IndexOf(s, key, id) == -1;
        assert [s[0]] + t == s;
      } else {
        assert IndexOf(s, key, id) == k + 1;
        SpliceAfterHead(s, k);
        calc {
          RemoveFirst(s, key, id);
          [s[0]] + RemoveFirst(t, key, id);
          [s[0]] + (t[..k] + t[k + 1..]);
          s[..k + 1] + s[k + 2..];
        }
      }
    }
  }

  /** Splicing out position `k + 1` keeps the head and splices position `k` out of the tail. */
  lemma SpliceAfterHead<T>(s: seq<T>, k: nat)
    requires k + 1 < |s|
    ensures s[..k + 1] + s[k + 2..] == [s[0]] + (s[1..][..k] + s[1..][k + 1..])
  {
    assert s[..k + 1] == [s[0]] + s[1..][..k];
    assert s[k + 2..] == s[1..][k + 1..];
  }

  /** The first match depends only on the keys: a sequence with the same keys has it at the same place. */
  lemma {:induction false} IndexOfSameKeys<T>(s: seq<T>, t: seq<T>, key: T -> string, id: string)
    requires |s| == |t|
    requires forall i :: 0 <= i < |s| ==> key(s[i]) == key(t[i])
    ensures IndexOf(s, key, id) == IndexOf(t, key, id)
  {
    if s != [] && key(s[0]) != id {
      IndexOfSameKeys(s[1..], t[1..], key, id);
    }
  }
}
