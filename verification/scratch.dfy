/** The scratch directory as a map from a container and one of its interfaces to a record. */
module Scratch {
  import opened Text
  import opened Host
  import opened Lifecycle
  import opened Reclaim
  import opened Placement

  /** The record of an interface of a container, as the files of the directory give it. */
  function Saved(store: map<string, Record>, cid: string, name: string): Option<Record> {
    if Key(cid, name) in store then Some(store[Key(cid, name)]) else None
  }

  /** Whatever becomes of these calls, the records of other interfaces and other containers stay. */
  lemma OthersUnaffected(w: World, h: State, cid: string, name: string, rec: Record, cid': string, name': string)
    requires IsEthName(name) && IsEthName(name') && (cid, name) != (cid', name')
    ensures Saved(Exec(w, h, WriteFile(Key(cid, name), rec)).h.store, cid', name') == Saved(h.store, cid', name')
    ensures Saved(Consume(w, h, Key(cid, name)).h.store, cid', name') == Saved(h.store, cid', name')
  {
    if Key(cid, name) == Key(cid', name') {
      KeyInjective(cid, name, cid', name');
    }
    hide Key, Exec, Consume, IsEthName;
    Written(w, h, Key(cid, name), rec);
    ConsumeOnly(w, h, Key(cid, name));
  }

  lemma ConsumeOnly(w: World, h: State, key: string)
    ensures var t := Consume(w, h, key).h; t.store == h.store || t.store == h.store - {key}
  {
  }

  /** What was saved is what is read back, once; the second read finds nothing. */
  lemma SaveThenGet(w: World, h: State, cid: string, name: string, rec: Record)
    requires AllOk(w, h.clock)
    ensures var key := Key(cid, name);
            var saved := Exec(w, h, WriteFile(key, rec)).h;
            var got := Consume(w, saved, key);
            && Saved(saved.store, cid, name) == Some(rec)
            && got.r == Data(rec) && got.h.store == h.store - {key} && Saved(got.h.store, cid, name) == None
            && Consume(w, got.h, key).r == Fail
  {
    hide Key;
    var key := Key(cid, name);
    var saved := Exec(w, h, WriteFile(key, rec)).h;
    ConsumeOk(w, saved, key);
    ConsumeNothing(w, Consume(w, saved, key).h, key);
  }

  /** For names of another kind two interfaces can share a file. */
  lemma KeysCanCoincide()
    ensures Key("pod-a", "net") == Key("pod", "a-net")
  {
    assert Key("pod-a", "net") == "pod-a-net";
  }
}
