/** The session dictionary of gps/location/LocationAPIClientBase: the ids of a client on one
    side, the sessions of the engine on the other, and what belongs to each session. Three
    maps hold it, and operator[] of a map inserts a zero where there was nothing. */
module SessionDict {

  type Id = nat
  type Session = nat

  datatype Dict<T> = Dict(forward: map<Id, Session>, backward: map<Session, Id>, ext: map<Session, T>)

  // ---------- The calls on a dictionary ----------

  function Set<T>(d: Dict<T>, id: Id, session: Session, ext: T): Dict<T> {
    Dict(d.forward[id := session], d.backward[session := id], d.ext[session := ext])
  }

  // operator[]: what an absent key stands for.
  function At(m: map<nat, nat>, k: nat): nat {
    if k in m then m[k] else 0
  }

  function RmById<T>(d: Dict<T>, id: Id): Dict<T> {
    Dict(d.forward - {id}, d.backward - {At(d.forward, id)}, d.ext - {At(d.forward, id)})
  }

  function RmBySession<T>(d: Dict<T>, session: Session): Dict<T> {
    Dict(d.forward - {At(d.backward, session)}, d.backward - {session}, d.ext - {session})
  }

  // getExtById only reads, but by operator[].
  function AfterGetExtById<T>(d: Dict<T>, id: Id): Dict<T> {
    d.(forward := d.forward[id := At(d.forward, id)])
  }

  function ExtById<T>(d: Dict<T>, id: Id, zero: T): T {
    var session := At(d.forward, id);
    if session > 0 && session in d.ext then d.ext[session] else zero
  }

  function ExtBySession<T>(d: Dict<T>, session: Session, zero: T): T {
    if session in d.ext then d.ext[session] else zero
  }

  // ---------- When they keep the maps together ----------

  ghost predicate Inverse<T>(d: Dict<T>) {
    && (forall id | id in d.forward :: d.forward[id] in d.backward && d.backward[d.forward[id]] == id)
    && (forall s | s in d.backward :: d.backward[s] in d.forward && d.forward[d.backward[s]] == s)
    && d.ext.Keys == d.backward.Keys
  }

  // An entry may be written over an entry for the same pair, and over no other.
  lemma SetKeepsInverseIff<T>(d: Dict<T>, id: Id, session: Session, ext: T)
    requires Inverse(d)
    ensures Inverse(Set(d, id, session, ext)) <==>
            ((id in d.forward <==> session in d.backward) && (id in d.forward ==> d.forward[id] == session))
  {
    var d' := Set(d, id, session, ext);
    if id in d.forward && d.forward[id] != session {
      var was := d.forward[id];
      assert was in d'.backward && d'.backward[was] == id;
    }
    if session in d.backward && d.backward[session] != id {
      var other := d.backward[session];
      assert other in d'.forward && d'.forward[other] == session;
    }
  }

  // To remove an absent id erases session 0, and to remove an absent session erases id 0.
  lemma RmByIdKeepsInverseIff<T>(d: Dict<T>, id: Id)
    requires Inverse(d)
    ensures Inverse(RmById(d, id)) <==> id in d.forward || 0 !in d.backward
  {
    var d' := RmById(d, id);
    if id !in d.forward && 0 in d.backward {
      assert d.backward[0] in d'.forward;
    }
  }

  lemma RmBySessionKeepsInverseIff<T>(d: Dict<T>, session: Session)
    requires Inverse(d)
    ensures Inverse(RmBySession(d, session)) <==> session in d.backward || 0 !in d.forward
  {
    var d' := RmBySession(d, session);
    if session !in d.backward && 0 in d.forward {
      assert d.forward[0] in d'.backward;
    }
  }

  // To ask for the data of an absent id leaves that id behind, without a session.
  lemma GetExtByIdKeepsInverseIff<T>(d: Dict<T>, id: Id)
    requires Inverse(d)
    ensures Inverse(AfterGetExtById(d, id)) <==> id in d.forward
  {
    var d' := AfterGetExtById(d, id);
    if id in d.forward {
      assert d'.forward == d.forward;
    } else {
      assert id in d'.forward && d'.forward[id] == 0;
    }
  }

  // Removal by either side takes exactly one pair away.
  lemma RemovalTakesOnePair<T>(d: Dict<T>, id: Id)
    requires Inverse(d) && id in d.forward
    ensures RmById(d, id) == RmBySession(d, d.forward[id])
    ensures forall other :: other in RmById(d, id).forward <==> other in d.forward && other != id
    ensures forall other | other in RmById(d, id).forward ::
              && RmById(d, id).forward[other] == d.forward[other]
              && d.forward[other] in RmById(d, id).ext
              && RmById(d, id).ext[d.forward[other]] == d.ext[d.forward[other]]
  {}

  // ---------- The class ----------

  class BiDict<T(==)> {
    const zero: T
    var mForwardMap: map<Id, Session>
    var mBackwardMap: map<Session, Id>
    var mExtMap: map<Session, T>

    ghost function Model(): Dict<T>
      reads this
    {
      Dict(mForwardMap, mBackwardMap, mExtMap)
    }

    constructor (zero: T)
      ensures Model() == Dict(map[], map[], map[]) && this.zero == zero
    {
      this.zero := zero;
      mForwardMap, mBackwardMap, mExtMap := map[], map[], map[];
    }

    method HasId(id: Id) returns (ret: bool)
      ensures ret == (id in Model().forward)
    {
      ret := id in mForwardMap;
    }

    method HasSession(session: Session) returns (ret: bool)
      ensures ret == (session in Model().backward)
    {
      ret := session in mBackwardMap;
    }

    method SetEntry(id: Id, session: Session, ext: T)
      modifies this
      ensures Model() == Set(old(Model()), id, session, ext)
    {
      mForwardMap := mForwardMap[id := session];
      mBackwardMap := mBackwardMap[session := id];
      mExtMap := mExtMap[session := ext];
    }

    // operator[] of the two maps between ids and sessions.
    method ForwardAt(id: Id) returns (session: Session)
      modifies `mForwardMap
      ensures session == At(old(mForwardMap), id)
      ensures mForwardMap == old(mForwardMap)[id := session]
    {
      if id !in mForwardMap {
        mForwardMap := mForwardMap[id := 0];
      }
      session := mForwardMap[id];
    }

    method BackwardAt(session: Session) returns (id: Id)
      modifies `mBackwardMap
      ensures id == At(old(mBackwardMap), session)
      ensures mBackwardMap == old(mBackwardMap)[session := id]
    {
      if session !in mBackwardMap {
        mBackwardMap := mBackwardMap[session := 0];
      }
      id := mBackwardMap[session];
    }

    method RemoveById(id: Id)
      modifies this
      ensures Model() == RmById(old(Model()), id)
    {
      var s := ForwardAt(id);
      mBackwardMap := mBackwardMap - {s};
      s := ForwardAt(id);
      mExtMap := mExtMap - {s};
      mForwardMap := mForwardMap - {id};
    }

    method RemoveBySession(session: Session)
      modifies this
      ensures Model() == RmBySession(old(Model()), session)
    {
      var id := BackwardAt(session);
      mForwardMap := mForwardMap - {id};
      mBackwardMap := mBackwardMap - {session};
      mExtMap := mExtMap - {session};
    }

    method GetExtById(id: Id) returns (ret: T)
      modifies this
      ensures Model() == AfterGetExtById(old(Model()), id)
      ensures ret == ExtById(old(Model()), id, zero)
    {
      ret := zero;
      var session := ForwardAt(id);
      if session > 0 {
        if session in mExtMap {
          ret := mExtMap[session];
        }
      }
    }

    method GetExtBySession(session: Session) returns (ret: T)
      ensures ret == ExtBySession(Model(), session, zero)
    {
      ret := if session in mExtMap then mExtMap[session] else zero;
    }
  }
}
