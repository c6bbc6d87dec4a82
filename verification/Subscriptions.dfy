/**
 The reverse index of the gateway: channel -> connections, against what each connection says it
 is subscribed to.
 */
module Subscriptions {
  import opened Options

  type Index = map<string, set<string>>

  function Members(index: Index, key: string): set<string> {
    if key in index then index[key] else {}
  }

  /** Create the set if it is missing, then add. */
  function With(index: Index, key: string, id: string): Index {
    index[key := Members(index, key) + {id}]
  }

  /** Remove, and drop the set when it becomes empty. */
  function Without(index: Index, key: string, id: string): Index {
    if key !in index then index
    else if index[key] - {id} == {} then index - {key}
    else index[key := index[key] - {id}]
  }

  predicate NoEmpty(index: Index) {
    forall k :: k in index ==> index[k] != {}
  }

  /** An id is filed under a channel exactly when it is live and subscribed to it; no empty set is stored. */
  ghost predicate Agree(subs: map<string, set<string>>, index: Index) {
    && NoEmpty(index)
    && forall ch, id :: id in Members(index, ch) <==> id in subs && ch in subs[id]
  }

  lemma MembersAfter(index: Index, key: string, id: string)
    requires NoEmpty(index)
    ensures NoEmpty(With(index, key, id)) && NoEmpty(Without(index, key, id))
    ensures forall k :: Members(With(index, key, id), k) == Members(index, k) + if k == key then {id} else {}
    ensures forall k :: Members(Without(index, key, id), k) == Members(index, k) - if k == key then {id} else {}
  {
  }

  /** Every live authenticated connection is filed under its user; no empty set is stored. */
  ghost predicate Filed(users: map<string, Option<string>>, index: Index) {
    && NoEmpty(index)
    && forall id :: id in users && users[id].Some? ==> id in Members(index, users[id].value)
  }

  /** Logging in files the connection under the new user and leaves what is filed under an earlier one. */
  lemma LoginFiles(users: map<string, Option<string>>, index: Index, user: string, id: string)
    requires Filed(users, index)
    ensures Filed(users[id := Some(user)], With(index, user, id))
    ensures Filed(users, With(index, user, id))
  {
    hide With, Members;
    MembersAfter(index, user, id);
  }

  function LoggedOut(index: Index, user: Option<string>, id: string): Index {
    if user.Some? then Without(index, user.value, id) else index
  }

  /** A logout takes the connection out of every user's set exactly when it was in no other user's. */
  lemma LoggedOutEverywhereIff(index: Index, user: Option<string>, id: string)
    requires NoEmpty(index)
    ensures (forall u :: id !in Members(LoggedOut(index, user, id), u))
       <==> (forall u :: id in Members(index, u) ==> user == Some(u))
  {
    hide Without, Members;
    if user.Some? {
      MembersAfter(index, user.value, id);
    }
    forall u
      ensures id in Members(LoggedOut(index, user, id), u) <==> id in Members(index, u) && user != Some(u)
    {
    }
  }

  lemma LogoutFiles(users: map<string, Option<string>>, index: Index, user: Option<string>, id: string)
    requires Filed(users, index)
    ensures Filed(users - {id}, LoggedOut(index, user, id))
  {
    hide Without, Members;
    if user.Some? {
      MembersAfter(index, user.value, id);
    }
  }

  /** A new connection is subscribed to nothing and logged in as nobody. */
  lemma ConnectAgrees(subs: map<string, set<string>>, users: map<string, Option<string>>, index: Index,
                      byUser: Index, id: string)
    requires Agree(subs, index) && Filed(users, byUser) && id !in subs && id !in users
    ensures Agree(subs[id := {}], index) && Filed(users[id := None], byUser)
  {
    hide Members;
  }

  lemma MembersAreLive(subs: map<string, set<string>>, index: Index, ch: string)
    requires Agree(subs, index)
    ensures Members(index, ch) <= subs.Keys
  {
    hide Members;
  }

  /** Of the connections that are gone, those logged in as the user. */
  function Leaving(users: map<string, Option<string>>, gone: set<string>, user: string): set<string> {
    set id | id in gone && id in users && users[id] == Some(user)
  }

  lemma LeavingNone(users: map<string, Option<string>>)
    ensures forall u :: Leaving(users, {}, u) == {}
  {
  }

  /** One more logout takes one more connection out of one user's set. */
  lemma LeavingNext(users: map<string, Option<string>>, filed: Index, current: Index, gone: set<string>, id: string)
    requires NoEmpty(current) && id in users
    requires forall u :: Members(current, u) == Members(filed, u) - Leaving(users, gone, u)
    ensures forall u ::
      Members(LoggedOut(current, users[id], id), u) == Members(filed, u) - Leaving(users, gone + {id}, u)
  {
    hide Without, Members;
    if users[id].Some? {
      MembersAfter(current, users[id].value, id);
    }
    forall u
      ensures Members(LoggedOut(current, users[id], id), u) == Members(filed, u) - Leaving(users, gone + {id}, u)
    {
      assert Leaving(users, gone + {id}, u) == Leaving(users, gone, u) + if users[id] == Some(u) then {id} else {};
    }
  }

  lemma FiledHasNoEmpty(users: map<string, Option<string>>, index: Index)
    requires Filed(users, index)
    ensures NoEmpty(index)
  {
  }

  lemma SubscribeAgrees(subs: map<string, set<string>>, index: Index, ch: string, id: string)
    requires Agree(subs, index) && id in subs
    ensures Agree(subs[id := subs[id] + {ch}], With(index, ch, id))
  {
    hide With, Members;
    MembersAfter(index, ch, id);
  }

  lemma AgreesHasNoEmpty(subs: map<string, set<string>>, index: Index)
    requires Agree(subs, index)
    ensures NoEmpty(index)
  {
  }

  /** Unsubscribing keeps the agreement for a connection that is live and for one that is gone. */
  lemma UnsubscribeAgrees(subs: map<string, set<string>>, index: Index, ch: string, id: string)
    requires Agree(subs, index)
    ensures Agree(if id in subs then subs[id := subs[id] - {ch}] else subs, Without(index, ch, id))
  {
    hide Without, Members;
    MembersAfter(index, ch, id);
  }

  /** Registering keeps the agreement exactly when the connection is live: one that is gone is filed for nothing. */
  lemma RegisterAgreesIff(subs: map<string, set<string>>, index: Index, ch: string, id: string)
    requires Agree(subs, index)
    ensures Agree(if id in subs then subs[id := subs[id] + {ch}] else subs, With(index, ch, id)) <==> id in subs
  {
    hide With, Members;
    MembersAfter(index, ch, id);
    if id !in subs {
      assert id in Members(With(index, ch, id), ch);
    }
  }

  /**
   A connection that is gone and registered all the same disagrees with the index only until its
   close event unfiles it from the channels it then holds.
   */
  lemma GoneIsUnfiled(subs: map<string, set<string>>, index: Index, ch: string, id: string, channels: seq<string>)
    requires Agree(subs, index) && id !in subs && ch in channels
    ensures WithoutAll(With(index, ch, id), channels, id) == index
  {
    hide With, WithoutAll, Members;
    MembersAfter(index, ch, id);
    MembersAfterAll(With(index, ch, id), channels, id);
    forall k ensures Members(WithoutAll(With(index, ch, id), channels, id), k) == Members(index, k) {
      assert id !in Members(index, k);
    }
    SameMembersSameIndex(WithoutAll(With(index, ch, id), channels, id), index);
  }

  /** Unfiling a connection from its own channels, one after the other. */
  function WithoutAll(index: Index, channels: seq<string>, id: string): Index {
    if |channels| == 0 then index
    else Without(WithoutAll(index, channels[..|channels| - 1], id), channels[|channels| - 1], id)
  }

  lemma {:induction false} MembersAfterAll(index: Index, channels: seq<string>, id: string)
    requires NoEmpty(index)
    ensures NoEmpty(WithoutAll(index, channels, id))
    ensures forall k ::
      Members(WithoutAll(index, channels, id), k) == Members(index, k) - if k in channels then {id} else {}
  {
    hide Without, Members;
    if |channels| > 0 {
      var rest := channels[..|channels| - 1];
      MembersAfterAll(index, rest, id);
      MembersAfter(WithoutAll(index, rest, id), channels[|channels| - 1], id);
      assert channels == rest + [channels[|channels| - 1]];
    }
  }

  /** Disconnecting, live or not, leaves the index in agreement, in whatever order its channels are visited. */
  lemma DisconnectAgrees(subs: map<string, set<string>>, index: Index, channels: seq<string>, id: string)
    requires Agree(subs, index)
    requires id in subs ==> forall ch :: ch in channels <==> ch in subs[id]
    ensures Agree(subs - {id}, WithoutAll(index, channels, id))
    ensures forall ch :: Members(WithoutAll(index, channels, id), ch) == Members(index, ch) - {id}
  {
    hide Members;
    MembersAfterAll(index, channels, id);
  }

  lemma SameMembersSameIndex(a: Index, b: Index)
    requires NoEmpty(a) && NoEmpty(b) && forall k :: Members(a, k) == Members(b, k)
    ensures a == b
  {
    forall k ensures (k in a <==> k in b) && (k in a ==> a[k] == b[k]) {
      assert Members(a, k) == Members(b, k);
    }
  }

  /** The index is determined by the subscriptions. */
  lemma AgreementIsUnique(subs: map<string, set<string>>, a: Index, b: Index)
    requires Agree(subs, a) && Agree(subs, b)
    ensures a == b
  {
    hide Members;
    forall ch ensures Members(a, ch) == Members(b, ch) {
      forall id ensures id in Members(a, ch) <==> id in Members(b, ch) {
        assert id in Members(a, ch) <==> id in subs && ch in subs[id];
      }
    }
    SameMembersSameIndex(a, b);
  }
}
