/**
 The API server, one key at a time.

 Every request names one key and the server's answer depends on that key alone, so the
 server is a function `Serve` on the cell of that key. A cell outlives its object: its
 clock counts the versions handed out, which is why a version is never reused.
 */
module Kube {
  import opened Api

  datatype Cell = Cell(clock: nat, live: Option<Obj>)

  const VACANT := Cell(0, None)

  type Store = map<Key, Cell>

  datatype Verb =
    | Get
    | Create(draft: Draft)
    | Update(version: nat, draft: Draft)
    | UpdateStatus(version: nat, status: Status)
    | Delete

  datatype Request = Request(key: Key, verb: Verb)

  datatype Reply = Ok(obj: Obj) | NotFound | AlreadyExists | Conflict | Forbidden | Transient

  function CellAt(s: Store, k: Key): Cell {
    if k in s then s[k] else VACANT
  }

  predicate Alive(s: Store, k: Key) {
    CellAt(s, k).live.Some?
  }

  function ObjAt(s: Store, k: Key): Obj
    requires Alive(s, k)
  {
    CellAt(s, k).live.value
  }

  /** Writing through the main resource leaves the status subresource alone. */
  function KeepStatus(body: Body, stored: Body): Body {
    if body.Instance? && stored.Instance? then body.(status := stored.status) else body
  }

  function DropStatus(body: Body): Body {
    if body.Instance? then body.(status := NoStatus) else body
  }

  predicate AddsFinalizer(wanted: seq<string>, stored: seq<string>) {
    exists f | f in wanted :: f !in stored
  }

  /** Replaces `o` by `n`: nothing happens to an equal object, and a terminating object without finalizers goes. */
  function Save(c: Cell, o: Obj, n: Obj): (Cell, Reply) {
    if n == o then
      (c, Ok(o))
    else
      var next := n.(version := c.clock + 1);
      (Cell(c.clock + 1, if n.deleting && n.finalizers == [] then None else Some(next)), Ok(next))
  }

  function Serve(c: Cell, verb: Verb): (Cell, Reply) {
    match verb
    case Create(d) =>
      if c.live.Some? then
        (c, AlreadyExists)
      else
        var o := Obj(c.clock + 1, c.clock + 1, false, d.finalizers, d.meta, DropStatus(d.body));
        (Cell(c.clock + 1, Some(o)), Ok(o))
    case _ =>
      if c.live.None? then
        (c, NotFound)
      else
        ServeLive(c, c.live.value, verb)
  }

  function ServeLive(c: Cell, o: Obj, verb: Verb): (Cell, Reply)
    requires !verb.Create?
  {
    match verb
    case Get => (c, Ok(o))
    case Update(version, d) =>
      if version != 0 && version != o.version then
        (c, Conflict)
      else if o.deleting && AddsFinalizer(d.finalizers, o.finalizers) then
        (c, Forbidden)
      else
        Save(c, o, o.(finalizers := d.finalizers, meta := d.meta, body := KeepStatus(d.body, o.body)))
    case UpdateStatus(version, status) =>
      if version != 0 && version != o.version then
        (c, Conflict)
      else
        Save(c, o, if o.body.Instance? then o.(body := o.body.(status := status)) else o)
    case Delete =>
      if o.finalizers == [] then
        (Cell(c.clock + 1, None), Ok(o))
      else
        Save(c, o, o.(deleting := true))
  }

  function Apply(s: Store, req: Request): (Store, Reply) {
    var (c, reply) := Serve(CellAt(s, req.key), req.verb);
    (if c == CellAt(s, req.key) then s else s[req.key := c], reply)
  }

  function ApplyAll(s: Store, reqs: seq<Request>): Store
    decreases |reqs|
  {
    if reqs == [] then s else ApplyAll(Apply(s, reqs[0]).0, reqs[1..])
  }

  /** What the rest of the world does before a call, and whether the call then fails without effect. */
  datatype Turn = Turn(others: seq<Request>, fails: bool)

  const QUIET := Turn([], false)

  function Next(turns: seq<Turn>): Turn {
    if turns == [] then QUIET else turns[0]
  }

  function Rest(turns: seq<Turn>): seq<Turn> {
    if turns == [] then [] else turns[1..]
  }

  function Answer(s: Store, req: Request, turn: Turn): (Store, Reply) {
    var before := ApplyAll(s, turn.others);
    if turn.fails then (before, Transient) else Apply(before, req)
  }

  ghost predicate ValidCell(c: Cell) {
    c.live.Some? ==>
      && 1 <= c.live.value.version <= c.clock
      && (c.live.value.deleting ==> c.live.value.finalizers != [])
  }

  ghost predicate Valid(s: Store) {
    forall k | k in s :: ValidCell(s[k])
  }

  /** A cell that moves on keeps its object or shows one with a version nobody has seen. */
  ghost predicate CellEvolves(c: Cell, d: Cell) {
    && c.clock <= d.clock
    && ValidCell(d)
    && (d.live.Some? && d.live != c.live ==> c.clock < d.live.value.version)
  }

  ghost predicate Evolves(s: Store, t: Store) {
    forall k :: CellEvolves(CellAt(s, k), CellAt(t, k))
  }

  lemma ServeEvolves(c: Cell, verb: Verb)
    requires ValidCell(c)
    ensures CellEvolves(c, Serve(c, verb).0)
  {
  }

  lemma ApplyAt(s: Store, req: Request, k: Key)
    ensures CellAt(Apply(s, req).0, k) == if k == req.key then Serve(CellAt(s, k), req.verb).0 else CellAt(s, k)
  {
  }

  lemma ApplyEvolves(s: Store, req: Request)
    requires Valid(s)
    ensures Valid(Apply(s, req).0) && Evolves(s, Apply(s, req).0)
  {
    ServeEvolves(CellAt(s, req.key), req.verb);
  }

  lemma {:induction false} ApplyAllEvolves(s: Store, reqs: seq<Request>)
    requires Valid(s)
    ensures Valid(ApplyAll(s, reqs)) && Evolves(s, ApplyAll(s, reqs))
    decreases |reqs|
  {
    if reqs != [] {
      ApplyEvolves(s, reqs[0]);
      ApplyAllEvolves(Apply(s, reqs[0]).0, reqs[1..]);
    }
  }

  /** A created object is what was sent, under a version and a uid that this key has never seen, and without a status. */
  lemma CreateRule(c: Cell, d: Draft)
    ensures var (e, reply) := Serve(c, Create(d));
            if c.live.Some? then
              e == c && reply == AlreadyExists
            else
              && reply.Ok? && e.live == Some(reply.obj) && e.clock == reply.obj.version
              && c.clock < reply.obj.version && c.clock < reply.obj.uid <= e.clock
              && !reply.obj.deleting && reply.obj.finalizers == d.finalizers && reply.obj.meta == d.meta
              && (d.body.Instance? ==> reply.obj.body == Instance(d.body.spec, NoStatus))
              && (!d.body.Instance? ==> reply.obj.body == d.body)
  {
  }

  /** As long as an object lives, its uid stays, and it is an old one. */
  lemma UidRule(c: Cell, verb: Verb)
    requires c.live.Some? && c.live.value.uid <= c.clock
    ensures var e := Serve(c, verb).0; c.clock <= e.clock && (e.live.Some? ==> e.live.value.uid == c.live.value.uid)
  {
  }

  /** The spec and the status of a resource are written apart. */
  lemma StatusRule(c: Cell, version: nat, d: Draft, status: Status)
    requires c.live.Some? && c.live.value.body.Instance? && d.body.Instance?
    ensures var e := Serve(c, Update(version, d)).0;
            e != c && e.live.Some? ==> e.live.value.body == Instance(d.body.spec, c.live.value.body.status)
    ensures var e := Serve(c, UpdateStatus(version, status)).0;
            e != c && e.live.Some? ==> e.live.value.body == Instance(c.live.value.body.spec, status)
  {
  }
}
