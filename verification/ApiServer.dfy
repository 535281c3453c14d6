/** The API server as an object that everybody changes. */
module ApiServer {
  import opened Kube

  /** `turns` says what the rest of the world does before each coming call of the client that holds this object. */
  class Server {
    var store: Store
    var turns: seq<Turn>

    constructor (store: Store, turns: seq<Turn>)
      ensures this.store == store && this.turns == turns
    {
      this.store, this.turns := store, turns;
    }

    method Do(req: Request) returns (reply: Reply)
      modifies this
      ensures (store, reply) == Answer(old(store), req, Next(old(turns)))
      ensures turns == Rest(old(turns))
    {
      var turn := Next(turns);
      ghost var before := store;
      for i := 0 to |turn.others|
        invariant ApplyAll(store, turn.others[i..]) == ApplyAll(before, turn.others)
        invariant turns == old(turns)
      {
        store := Apply(store, turn.others[i]).0;
        assert turn.others[i..][1..] == turn.others[i + 1..];
      }
      if turn.fails {
        reply := Transient;
      } else {
        var (t, r) := Apply(store, req);
        store, reply := t, r;
      }
      turns := Rest(turns);
    }
  }
}
