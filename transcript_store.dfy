/** The in-memory transcript store: one append-only message list per conversation id. */
module TranscriptStore {
  import opened DomainModels

  /** The list stored under `cid`, or the empty list when there is none. */
  function Lookup(db: map<string, seq<Message>>, cid: string): seq<Message> {
    if cid in db then db[cid] else []
  }

  /** `db.setdefault(cid, []).append(m)`. */
  function AppendTo(db: map<string, seq<Message>>, cid: string, m: Message): (r: map<string, seq<Message>>)
    ensures Lookup(r, cid) == Lookup(db, cid) + [m]
    ensures forall other | other != cid :: Lookup(r, other) == Lookup(db, other)
    ensures r.Keys == db.Keys + {cid}
  {
    db[cid := Lookup(db, cid) + [m]]
  }

  /** One call of `append`: a conversation id and the message appended under it. */
  datatype Append = Append(cid: string, message: Message)

  /** The store after the given appends, in order, starting from `db`. */
  function Replay(db: map<string, seq<Message>>, appends: seq<Append>): map<string, seq<Message>>
    decreases |appends|
  {
    if appends == [] then db
    else Replay(AppendTo(db, appends[0].cid, appends[0].message), appends[1..])
  }

  /** The messages of `appends` addressed to `cid`, in append order. */
  function MessagesFor(appends: seq<Append>, cid: string): (r: seq<Message>)
    ensures |r| <= |appends|
    decreases |appends|
  {
    if appends == [] then []
    else (if appends[0].cid == cid then [appends[0].message] else []) + MessagesFor(appends[1..], cid)
  }

  /** Any sequence of appends leaves under each id exactly the old list followed by the
      messages appended to that id, in the order they were appended. */
  lemma {:induction false} ReplayKeepsAppendOrder(db: map<string, seq<Message>>, appends: seq<Append>, cid: string)
    ensures Lookup(Replay(db, appends), cid) == Lookup(db, cid) + MessagesFor(appends, cid)
    decreases |appends|
  {
    if appends != [] {
      var db1 := AppendTo(db, appends[0].cid, appends[0].message);
      ReplayKeepsAppendOrder(db1, appends[1..], cid);
    }
  }

  /** From a fresh store, `k` appends to one id give a list of length `k` holding those
      messages in append order. */
  lemma FreshStoreAppends(cid: string, messages: seq<Message>)
    ensures Lookup(Replay(map[], seq(|messages|, i requires 0 <= i < |messages| => Append(cid, messages[i]))), cid) == messages
  {
    var appends := seq(|messages|, i requires 0 <= i < |messages| => Append(cid, messages[i]));
    ReplayKeepsAppendOrder(map[], appends, cid);
    AllForOne(appends, cid, messages);
  }

  lemma {:induction false} AllForOne(appends: seq<Append>, cid: string, messages: seq<Message>)
    requires |appends| == |messages|
    requires forall i | 0 <= i < |appends| :: appends[i] == Append(cid, messages[i])
    ensures MessagesFor(appends, cid) == messages
    decreases |appends|
  {
    if appends != [] {
      AllForOne(appends[1..], cid, messages[1..]);
    }
  }

  class MemoryTranscriptStore {
    var db: map<string, seq<Message>>

    /** A fresh store holds no list for any id. */
    constructor ()
      ensures db == map[]
      ensures forall cid :: Lookup(db, cid) == []
    {
      db := map[];
    }

    /** Appends `message` to the end of the conversation's list, creating the list when absent. */
    method AppendMessage(cid: string, message: Message)
      modifies this
      ensures db == AppendTo(old(db), cid, message)
    {
      db := AppendTo(db, cid, message);
    }

    /** The conversation's list as a value: later appends cannot change what is returned. */
    method Get(cid: string) returns (r: seq<Message>)
      ensures r == Lookup(db, cid)
    {
      r := Lookup(db, cid);
    }
  }
}
