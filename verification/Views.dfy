/**
 Two channel tables kept in step over two first-in first-out links, reduced to what matters: which
 key each side has under each local and each remote id, and the signals on their way.
 */
module Views {
  import opened Handshake

  /** The keys under the local ids and under the remote ids of one side. */
  datatype View = View(l: map<nat, Key>, r: map<nat, Key>)

  /** What a message means to the receiver's table; traffic remembers the key of the channel it was sent on. */
  datatype Signal = Opened(id: nat, dk: Key) | Ended(id: nat) | Traffic(id: nat, dk: Key)

  function Without(m: map<nat, Key>, dk: Key): map<nat, Key> {
    map i | i in m && m[i] != dk :: m[i]
  }

  lemma WithoutUpdate(m: map<nat, Key>, i: nat, k: Key, dk: Key)
    requires k != dk
    ensures Without(m[i := k], dk) == Without(m, dk)[i := k]
  {
  }

  lemma WithoutBoth(m: map<nat, Key>, k: Key, dk: Key)
    ensures Without(Without(m, k), dk) == Without(Without(m, dk), k)
  {
  }

  lemma WithoutRemove(m: map<nat, Key>, i: nat, dk: Key)
    ensures Without(m - {i}, dk) == Without(m, dk) - {i}
  {
  }

  /** With unique ids, removing a key is removing its id. */
  lemma WithoutIsRemove(m: map<nat, Key>, i: nat)
    requires Injective(m) && i in m
    ensures Without(m, m[i]) == m - {i}
  {
  }

  lemma WithoutAt(m: map<nat, Key>, i: nat, dk: Key)
    ensures i in Without(m, dk) <==> i in m && m[i] != dk
    ensures i in Without(m, dk) ==> Without(m, dk)[i] == m[i]
    ensures dk !in Without(m, dk).Values
  {
  }

  ghost predicate Injective(m: map<nat, Key>) {
    forall i, j | i in m && j in m && m[i] == m[j] :: i == j
  }

  ghost predicate Proper(v: View) { Injective(v.l) && Injective(v.r) }

  predicate Connected(v: View, dk: Key) { dk in v.l.Values && dk in v.r.Values }

  /** Both ids of a key go when its handle is removed. */
  function Drop(v: View, dk: Key): View { View(Without(v.l, dk), Without(v.r, dk)) }

  /** A received signal. The end of a remote id ends the local id of the same key. */
  function Hear(v: View, s: Signal): View {
    match s
    case Opened(id, dk) => v.(r := v.r[id := dk])
    case Ended(id) => if id in v.r then View(Without(v.l, v.r[id]), v.r - {id}) else v
    case Traffic(_, _) => v
  }

  /** The view once everything on the link has been received. */
  function Drain(v: View, link: seq<Signal>): View
    decreases |link|
  {
    if link == [] then v else Drain(Hear(v, link[0]), link[1..])
  }

  /** An Open finds its id and its key free; everything else finds its id free or, under it, a connected key: traffic its own. */
  predicate Fits(v: View, s: Signal) {
    match s
    case Opened(id, dk) => id !in v.r && dk !in v.r.Values
    case Ended(id) => id in v.r ==> v.r[id] in v.l.Values
    case Traffic(id, dk) => id in v.r ==> v.r[id] == dk && dk in v.l.Values
  }

  predicate AllFit(v: View, link: seq<Signal>)
    decreases |link|
  {
    link != [] ==> Fits(v, link[0]) && AllFit(Hear(v, link[0]), link[1..])
  }

  predicate Mirror(a: View, b: View) { a.l == b.r && a.r == b.l }

  /** The two sides agree on everything once both links are empty, and no signal on the way is out of place. */
  ghost predicate Agree(a: View, b: View, ab: seq<Signal>, ba: seq<Signal>) {
    && Proper(a) && Proper(b)
    && AllFit(a, ba) && AllFit(b, ab)
    && Mirror(Drain(a, ba), Drain(b, ab))
  }

  lemma Symmetry(a: View, b: View, ab: seq<Signal>, ba: seq<Signal>)
    ensures Agree(a, b, ab, ba) <==> Agree(b, a, ba, ab)
  {
  }

  //
  // Draining
  //

  predicate Within(m: map<nat, Key>, n: map<nat, Key>) {
    forall i | i in m :: i in n && m[i] == n[i]
  }

  lemma HearProper(v: View, s: Signal)
    requires Proper(v) && Fits(v, s)
    ensures Proper(Hear(v, s)) && Within(Hear(v, s).l, v.l)
  {
  }

  /** Draining keeps ids unique and never adds a local id. */
  lemma {:induction false} DrainProper(v: View, link: seq<Signal>)
    requires Proper(v) && AllFit(v, link)
    ensures Proper(Drain(v, link)) && Within(Drain(v, link).l, v.l)
    decreases |link|
  {
    if link == [] {
    } else {
      HearProper(v, link[0]);
      DrainProper(Hear(v, link[0]), link[1..]);
    }
  }

  lemma {:induction false} DrainAppend(v: View, link: seq<Signal>, s: Signal)
    ensures Drain(v, link + [s]) == Hear(Drain(v, link), s)
    ensures AllFit(v, link + [s]) <==> AllFit(v, link) && Fits(Drain(v, link), s)
    decreases |link|
  {
    if link == [] {
      assert link + [s] == [s];
      assert [s][1..] == [];
    } else {
      assert (link + [s])[0] == link[0] && (link + [s])[1..] == link[1..] + [s];
      DrainAppend(Hear(v, link[0]), link[1..], s);
    }
  }

  /** What happens to the remote ids does not depend on the local ids. */
  lemma {:induction false} DrainRemote(v: View, w: View, link: seq<Signal>)
    requires v.r == w.r
    ensures Drain(v, link).r == Drain(w, link).r
    decreases |link|
  {
    if link == [] {
    } else {
      DrainRemote(Hear(v, link[0]), Hear(w, link[0]), link[1..]);
    }
  }

  //
  // Opening
  //

  /** A new local id for an unattached key is untouched by what is on the way. */
  lemma {:induction false} OpenCommutes(v: View, link: seq<Signal>, i: nat, dk: Key)
    requires Proper(v) && AllFit(v, link) && i !in v.l && dk !in v.l.Values
    ensures var w := v.(l := v.l[i := dk]);
            AllFit(w, link) && Drain(w, link) == Drain(v, link).(l := Drain(v, link).l[i := dk])
    decreases |link|
  {
    if link == [] {
    } else {
      var s := link[0];
      HearProper(v, s);
      HearOpen(v, s, i, dk);
      hide Hear, Fits;
      OpenCommutes(Hear(v, s), link[1..], i, dk);
    }
  }

  lemma HearOpen(v: View, s: Signal, i: nat, dk: Key)
    requires Proper(v) && Fits(v, s) && i !in v.l && dk !in v.l.Values
    ensures var w, h := v.(l := v.l[i := dk]), Hear(v, s);
            Fits(w, s) && Hear(w, s) == h.(l := h.l[i := dk]) && i !in h.l && dk !in h.l.Values
  {
    hide Without;
    ValuesGrow(v.l, i, dk);
    if s.Ended? && s.id in v.r {
      WithoutUpdate(v.l, i, dk, v.r[s.id]);
      WithoutAt(v.l, i, v.r[s.id]);
      WithoutValues(v.l, v.r[s.id]);
    }
  }

  lemma WithoutValues(m: map<nat, Key>, dk: Key)
    ensures Without(m, dk).Values <= m.Values
  {
  }

  lemma ValuesGrow(m: map<nat, Key>, i: nat, dk: Key)
    requires i !in m
    ensures forall k | k in m.Values :: k in m[i := dk].Values
  {
    forall k | k in m.Values ensures k in m[i := dk].Values {
      var j :| j in m && m[j] == k;
      assert m[i := dk][j] == k;
    }
  }

  lemma OpenAgrees(a: View, b: View, ab: seq<Signal>, ba: seq<Signal>, i: nat, dk: Key)
    requires Agree(a, b, ab, ba) && i !in a.l && dk !in a.l.Values
    ensures Agree(a.(l := a.l[i := dk]), b, ab + [Opened(i, dk)], ba)
  {
    hide Drain, AllFit;
    OpenCommutes(a, ba, i, dk);
    DrainProper(a, ba);
    DrainAppend(b, ab, Opened(i, dk));
    assert i !in Drain(b, ab).r && dk !in Drain(b, ab).r.Values;
  }

  //
  // Closing
  //

  /**
   Removing a connected key commutes with draining, unless its end is already on the way: then the
   view after draining is as if the key had not been removed before.
   */
  lemma {:induction false} CloseCommutes(v: View, link: seq<Signal>, i: nat, j: nat, dk: Key)
    requires Proper(v) && AllFit(v, link)
    requires i in v.l && v.l[i] == dk && j in v.r && v.r[j] == dk
    ensures AllFit(Drop(v, dk), link)
    ensures var d := Drain(v, link);
            if i in d.l then d.l[i] == dk && j in d.r && d.r[j] == dk && Drain(Drop(v, dk), link) == Drop(d, dk)
            else Drain(Drop(v, dk), link) == d
    decreases |link|
  {
    if link == [] {
    } else {
      var s, rest := link[0], link[1..];
      var w := Drop(v, dk);
      HearProper(v, s);
      if s == Ended(j) {
        assert Hear(v, s) == w;
        assert Hear(w, s) == w;
        DrainProper(w, rest);
      } else {
        assert Hear(w, s) == Drop(Hear(v, s), dk) by { HearDrop(v, s, i, j, dk); }
        assert Fits(w, s) by { FitsDrop(v, s, i, j, dk); }
        KeepsKey(v, s, i, j, dk);
        CloseCommutes(Hear(v, s), rest, i, j, dk);
      }
    }
  }

  lemma HearDrop(v: View, s: Signal, i: nat, j: nat, dk: Key)
    requires Proper(v) && Fits(v, s) && s != Ended(j)
    requires i in v.l && v.l[i] == dk && j in v.r && v.r[j] == dk
    ensures Hear(Drop(v, dk), s) == Drop(Hear(v, s), dk)
  {
    hide Without;
    match s
    case Opened(id, k) => WithoutUpdate(v.r, id, k, dk);
    case Ended(id) =>
      WithoutAt(v.r, id, dk);
      if id in v.r {
        assert v.r[id] != dk;
        WithoutBoth(v.l, v.r[id], dk);
        WithoutRemove(v.r, id, dk);
      }
    case Traffic(_, _) =>
  }

  lemma FitsDrop(v: View, s: Signal, i: nat, j: nat, dk: Key)
    requires Proper(v) && Fits(v, s)
    requires i in v.l && v.l[i] == dk && j in v.r && v.r[j] == dk
    ensures Fits(Drop(v, dk), s)
  {
    var w := Drop(v, dk);
    if !s.Opened? && s.id in w.r {
      var k := v.r[s.id];
      var h :| h in v.l && v.l[h] == k;
      assert w.l[h] == k;
    }
  }

  lemma KeepsKey(v: View, s: Signal, i: nat, j: nat, dk: Key)
    requires Proper(v) && Fits(v, s) && s != Ended(j)
    requires i in v.l && v.l[i] == dk && j in v.r && v.r[j] == dk
    ensures var h := Hear(v, s); i in h.l && h.l[i] == dk && j in h.r && h.r[j] == dk
  {
  }

  lemma DropProper(v: View, dk: Key)
    requires Proper(v)
    ensures Proper(Drop(v, dk))
  {
  }

  /** Closing a connected key and telling the peer keeps the sides in agreement, also if both close at once. */
  lemma CloseAgrees(a: View, b: View, ab: seq<Signal>, ba: seq<Signal>, i: nat)
    requires Agree(a, b, ab, ba) && i in a.l && a.l[i] in a.r.Values
    ensures Agree(Drop(a, a.l[i]), b, ab + [Ended(i)], ba)
  {
    hide Drain, AllFit, Without;
    var dk := a.l[i];
    var j :| j in a.r && a.r[j] == dk;
    CloseCommutes(a, ba, i, j, dk);
    DrainProper(a, ba);
    DrainAppend(b, ab, Ended(i));
    DropProper(a, dk);
    var d, e := Drain(a, ba), Drain(b, ab);
    if i in d.l {
      assert e.r[i] == dk;
      assert e.l[j] == dk;
      WithoutIsRemove(d.l, i);
    }
  }

  /** The end of an id that is not in use any more is harmless. */
  lemma StaleCloseAgrees(a: View, b: View, ab: seq<Signal>, ba: seq<Signal>, i: nat)
    requires Agree(a, b, ab, ba) && i !in a.l
    ensures Agree(a, b, ab + [Ended(i)], ba)
  {
    hide Drain, AllFit;
    DrainProper(a, ba);
    DrainAppend(b, ab, Ended(i));
  }

  /** A message on a connected id, or on one no longer in use, finds the channel of its own key or none. */
  lemma TrafficAgrees(a: View, b: View, ab: seq<Signal>, ba: seq<Signal>, i: nat, dk: Key)
    requires Agree(a, b, ab, ba) && (i in a.l ==> a.l[i] == dk && dk in a.r.Values)
    ensures Agree(a, b, ab + [Traffic(i, dk)], ba)
  {
    hide Drain, AllFit;
    DrainProper(a, ba);
    DrainAppend(b, ab, Traffic(i, dk));
    var d, e := Drain(a, ba), Drain(b, ab);
    if i in e.r {
      var j :| j in a.r && a.r[j] == dk;
      CloseCommutes(a, ba, i, j, dk);
      assert e.l[j] == dk;
    }
  }

  lemma ReceiveAgrees(a: View, b: View, ab: seq<Signal>, ba: seq<Signal>)
    requires Agree(a, b, ab, ba) && ab != []
    ensures Fits(b, ab[0])
    ensures Agree(a, Hear(b, ab[0]), ab[1..], ba)
  {
    HearProper(b, ab[0]);
  }

  //
  // What breaks agreement
  //

  /** Removing a local id only removes it from the drained view too. */
  lemma {:induction false} HalfDropCommutes(v: View, link: seq<Signal>, dk: Key)
    ensures Drain(v.(l := Without(v.l, dk)), link) == Drain(v, link).(l := Without(Drain(v, link).l, dk))
    decreases |link|
  {
    if link == [] {
    } else {
      var s := link[0];
      var w := v.(l := Without(v.l, dk));
      assert Hear(w, s) == Hear(v, s).(l := Without(Hear(v, s).l, dk));
      HalfDropCommutes(Hear(v, s), link[1..], dk);
    }
  }

  /** An Open for the key is on its way. */
  predicate OpensLater(link: seq<Signal>, dk: Key) {
    exists a :: 0 <= a < |link| && link[a].Opened? && link[a].dk == dk
  }

  /** An Open for the key is on its way, and behind it the end of the id it brings. */
  predicate EndsLater(link: seq<Signal>, dk: Key) {
    exists a, b :: 0 <= a < b < |link| && link[a].Opened? && link[a].dk == dk && link[b] == Ended(link[a].id)
  }

  lemma LaterCons(link: seq<Signal>, dk: Key)
    requires link != []
    ensures OpensLater(link, dk) <==> (link[0].Opened? && link[0].dk == dk) || OpensLater(link[1..], dk)
    ensures EndsLater(link, dk) <==>
            || (link[0].Opened? && link[0].dk == dk && Ended(link[0].id) in link[1..])
            || EndsLater(link[1..], dk)
  {
    var rest := link[1..];
    if OpensLater(rest, dk) {
      var a :| 0 <= a < |rest| && rest[a].Opened? && rest[a].dk == dk;
      assert link[a + 1] == rest[a];
    }
    if EndsLater(rest, dk) {
      var a, b :| 0 <= a < b < |rest| && rest[a].Opened? && rest[a].dk == dk && rest[b] == Ended(rest[a].id);
      assert link[a + 1] == rest[a] && link[b + 1] == rest[b];
    }
    if link[0].Opened? && link[0].dk == dk && Ended(link[0].id) in rest {
      var b :| 0 <= b < |rest| && rest[b] == Ended(link[0].id);
      assert link[b + 1] == rest[b];
    }
    if EndsLater(link, dk) {
      var a, b :| 0 <= a < b < |link| && link[a].Opened? && link[a].dk == dk && link[b] == Ended(link[a].id);
      assert link[b] == rest[b - 1];
      if a > 0 {
        assert link[a] == rest[a - 1];
      }
    }
  }

  /** A connected key stays connected, and no Open for it comes, until the end of its remote id comes. */
  lemma {:induction false} ConnectedUntilEnd(v: View, link: seq<Signal>, i: nat, j: nat, dk: Key)
    requires Proper(v) && AllFit(v, link)
    requires i in v.l && v.l[i] == dk && j in v.r && v.r[j] == dk
    ensures Ended(j) in link ==> dk !in Drain(v, link).l.Values
    ensures Ended(j) !in link ==> Connected(Drain(v, link), dk) && !OpensLater(link, dk)
    decreases |link|
  {
    hide OpensLater;
    if link == [] {
      assert v.l[i] == dk && v.r[j] == dk;
      assert !OpensLater(link, dk) by { NothingLater(dk); }
    } else {
      var s, rest := link[0], link[1..];
      HearProper(v, s);
      LaterCons(link, dk);
      if s == Ended(j) {
        DrainProper(Hear(v, s), rest);
        EndedKey(v, rest, i, j, dk);
      } else {
        KeepsKey(v, s, i, j, dk);
        ConnectedUntilEnd(Hear(v, s), rest, i, j, dk);
      }
    }
  }

  lemma NothingLater(dk: Key)
    ensures !OpensLater([], dk) && !EndsLater([], dk)
  {
  }

  lemma EndedKey(v: View, rest: seq<Signal>, i: nat, j: nat, dk: Key)
    requires j in v.r && v.r[j] == dk && Within(Drain(Hear(v, Ended(j)), rest).l, Hear(v, Ended(j)).l)
    ensures dk !in Drain(Hear(v, Ended(j)), rest).l.Values
  {
    hide Drain;
  }

  /**
   What becomes of a half-open key: it is connected if an Open for it comes and the end of that id does
   not, and it is gone if both come.
   */
  lemma {:induction false} HalfOpenLater(v: View, link: seq<Signal>, i: nat, dk: Key)
    requires Proper(v) && AllFit(v, link)
    requires i in v.l && v.l[i] == dk && dk !in v.r.Values
    ensures dk in Drain(v, link).l.Values <==> !EndsLater(link, dk)
    ensures Connected(Drain(v, link), dk) <==> OpensLater(link, dk) && !EndsLater(link, dk)
    decreases |link|
  {
    hide OpensLater, EndsLater;
    if link == [] {
      assert v.l[i] == dk;
      NothingLater(dk);
    } else {
      var s, rest := link[0], link[1..];
      HearProper(v, s);
      LaterCons(link, dk);
      if s.Opened? && s.dk == dk {
        ConnectedUntilEnd(Hear(v, s), rest, i, s.id, dk);
        OpensBeforeEnds(rest, dk);
      } else {
        StaysHalfOpen(v, s, i, dk);
        HalfOpenLater(Hear(v, s), rest, i, dk);
      }
    }
  }

  lemma OpensBeforeEnds(link: seq<Signal>, dk: Key)
    ensures EndsLater(link, dk) ==> OpensLater(link, dk)
  {
  }

  lemma StaysHalfOpen(v: View, s: Signal, i: nat, dk: Key)
    requires Proper(v) && Fits(v, s) && i in v.l && v.l[i] == dk && dk !in v.r.Values
    requires !(s.Opened? && s.dk == dk)
    ensures var h := Hear(v, s); i in h.l && h.l[i] == dk && dk !in h.r.Values
  {
    if s.Ended? && s.id in v.r {
      assert v.r[s.id] in v.r.Values;
    }
  }

  /**
   Telling the peer that a half-open channel ended breaks the mirror exactly when the peer's Open for it
   is on its way and the end of that id is not.
   */
  lemma HalfCloseExactly(a: View, b: View, ab: seq<Signal>, ba: seq<Signal>, i: nat)
    requires Agree(a, b, ab, ba) && i in a.l && a.l[i] !in a.r.Values
    ensures Mirror(Drain(Drop(a, a.l[i]), ba), Drain(b, ab + [Ended(i)]))
       <==> !OpensLater(ba, a.l[i]) || EndsLater(ba, a.l[i])
  {
    hide Drain, AllFit, Without, OpensLater, EndsLater;
    var dk := a.l[i];
    HalfOpenLater(a, ba, i, dk);
    assert Drop(a, dk) == a.(l := Without(a.l, dk)) by { AbsentKey(a.r, dk); }
    HalfDropCommutes(a, ba, dk);
    DrainProper(a, ba);
    DrainAppend(b, ab, Ended(i));
    var d, e := Drain(a, ba), Drain(b, ab);
    if dk in d.l.Values {
      var h :| h in d.l && d.l[h] == dk;
      assert h == i;
      WithoutIsRemove(d.l, i);
      if dk in d.r.Values {
        WithoutAt(e.l, i, dk);
      } else {
        AbsentKey(e.l, dk);
      }
    } else {
      AbsentKey(d.l, dk);
      assert i !in d.l;
    }
  }

  lemma AbsentKey(m: map<nat, Key>, dk: Key)
    requires dk !in m.Values
    ensures Without(m, dk) == m
  {
    assert forall i | i in m :: m[i] in m.Values;
  }

  /** While a key has only a remote id nothing on the way concerns that id. */
  lemma {:induction false} RemoteStays(v: View, w: View, link: seq<Signal>, j: nat, dk: Key)
    requires AllFit(v, link) && dk !in v.l.Values && j in v.r && v.r[j] == dk && j !in w.r
    ensures j in Drain(v, link).r && j !in Drain(w, link).r
    decreases |link|
  {
    if link == [] {
    } else {
      var s := link[0];
      assert s.id == j ==> s.Traffic?;
      assert dk !in Hear(v, s).l.Values;
      RemoteStays(Hear(v, s), Hear(w, s), link[1..], j, dk);
    }
  }

  /** The end of the peer's channel for the key is on its way: of the id it has now, or of one on its way. */
  predicate PeerEnds(v: View, link: seq<Signal>, dk: Key) {
    if dk in v.r.Values then exists j :: j in v.r && v.r[j] == dk && Ended(j) in link else EndsLater(link, dk)
  }

  /**
   Removing a key without telling the peer keeps the mirror if and only if there was nothing to remove,
   or the key was open and the end of the peer's channel for it is on its way.
   */
  lemma SilentCloseExactly(a: View, b: View, ab: seq<Signal>, ba: seq<Signal>, dk: Key)
    requires Agree(a, b, ab, ba)
    ensures Mirror(Drain(Drop(a, dk), ba), Drain(b, ab)) <==>
            || (dk !in a.l.Values && dk !in a.r.Values)
            || (dk in a.l.Values && PeerEnds(a, ba, dk))
  {
    hide Drain, AllFit, EndsLater, OpensLater;
    DrainProper(a, ba);
    if dk in a.l.Values {
      var i :| i in a.l && a.l[i] == dk;
      if dk in a.r.Values {
        var j :| j in a.r && a.r[j] == dk;
        ConnectedUntilEnd(a, ba, i, j, dk);
        CloseCommutes(a, ba, i, j, dk);
      } else {
        HalfOpenLater(a, ba, i, dk);
        AbsentKey(a.r, dk);
        HalfDropCommutes(a, ba, dk);
      }
      var d := Drain(a, ba);
      if dk in d.l.Values {
        var h :| h in d.l && d.l[h] == dk;
        assert h == i && i !in Without(d.l, dk);
      } else {
        AbsentKey(d.l, dk);
        assert i !in d.l;
      }
    } else if dk in a.r.Values {
      var j :| j in a.r && a.r[j] == dk;
      AbsentKey(a.l, dk);
      RemoteStays(a, Drop(a, dk), ba, j, dk);
    } else {
      AbsentKey(a.l, dk);
      AbsentKey(a.r, dk);
    }
  }
}
