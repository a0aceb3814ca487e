/** The whole device: the pairing store, every relay client, their owner's maps, and the messages between them. */
module PairingSystem {
  import opened Common
  import opened PairingRecords
  import opened PairingState
  import opened PairingRuns
  import Registry = PairingRegistry
  import Relay = RelayState

  type Cid = nat

  /** One client: what it was built for and from, its state, and how many of its owner's calls its queue has run. */
  datatype Cell = Cell(pid: Pid, did: Did, cfg: Relay.Config, state: Relay.Client, taken: nat)

  /** A callback that has left a client's queue and waits for the main actor. */
  datatype Mail = Promote(pid: Pid, confirmed: bool) | UnpairedBy(did: Did)

  /** `wired` are the clients whose confirmation still asks for a promotion. */
  datatype World = World(store: Store, reg: Registry.Registry<Cid>, cells: map<Cid, Cell>, wired: set<Cid>,
                         mail: multiset<Mail>)

  const BLANK := World(FRESH, Registry.Registry(map[], map[], map[]), map[], {}, multiset{})

  /** Whether the pending secret can be read when its owner looks, and again when the store does. */
  datatype Reads = Reads(owner: bool, store: bool)

  datatype Happening =
    | Scan(pairing: Pairing, now: int, secretOk: bool)
    | Begin(pid: Pid, c: Cid, cfg: Relay.Config, token: Option<string>)
    | Open(did: Did, c: Cid, cfg: Relay.Config, token: Option<string>)
    | Nudge(c: Cid)
    | Cancel(pid: Pid)
    | Remove(did: Did, view: Option<seq<Blob>>)
    | Hide(did: Did, view: Option<seq<Blob>>)
    | Deliver(mail: Mail, now: int, secret: Reads, saveOk: bool, view: Option<seq<Blob>>)
    | Take(c: Cid, tokenFresh: bool)
    | Internal(c: Cid, step: Relay.Step)
    | Outside(event: Event)
    | Relaunch

  function PendingFloor(s: Store, pid: Pid): int {
    if pid in s.pending then s.pending[pid].pairing.minV else 0
  }

  /** The stored floor a client looks up, by its phase. */
  function LookedUp(s: Store, cell: Cell): int {
    if cell.state.pendingPhase then PendingFloor(s, cell.pid) else FloorOf(s, cell.did)
  }

  function StepOf(call: Registry.Call, tokenFresh: bool): Option<Relay.Step> {
    match call
    case Connect => Some(Relay.Connect(tokenFresh))
    case Disconnect => Some(Relay.Disconnect)
    case SetPhase(pending) => Some(Relay.SetPhase(pending))
    case SendUnpair => None
  }

  predicate IsInternal(s: Relay.Step) {
    !s.Connect? && !s.Disconnect? && !s.SetPhase?
  }

  /** What one effect does to the store. */
  function StoreAfter(s: Store, pid: Pid, did: Did, e: Relay.Effect): Store {
    match e
    case RaiseFloor(pending, v) => if pending then PendingFloorRaised(s, pid, v) else FloorRaised(s, did, v)
    case RecordPct(tag) => PctRecorded(s, did, tag)
    case _ => s
  }

  function StoreAfterAll(s: Store, pid: Pid, did: Did, effects: seq<Relay.Effect>): Store {
    if effects == [] then s
    else StoreAfter(StoreAfterAll(s, pid, did, effects[..|effects| - 1]), pid, did, effects[|effects| - 1])
  }

  /** The messages effects leave for the main actor; only a pending client's confirmation asks for a promotion. */
  function Posted(wired: bool, pid: Pid, effects: seq<Relay.Effect>): multiset<Mail> {
    if effects == [] then multiset{}
    else
      Posted(wired, pid, effects[..|effects| - 1]) +
      match effects[|effects| - 1]
      case Confirmed(ok) => if wired then multiset{Promote(pid, ok)} else multiset{}
      case AskUnpair(did) => if wired then multiset{} else multiset{UnpairedBy(did)}
      case _ => multiset{}
  }

  /** `promoteConfirmed`, on the registry and the store. */
  function PromotionDelivered(legacy: Did -> Pid, w: World, pid: Pid, now: int, secret: Reads, saveOk: bool,
                              view: Option<seq<Blob>>): World
  {
    if pid !in w.reg.pendings then w
    else if pid !in w.store.pending || !secret.owner then w.(reg := Registry.DroppedPending(w.reg, pid))
    else
      var t := w.(store := Promoted(legacy, w.store, pid, now, secret.store, saveOk, view).0);
      if secret.store && saveOk
          then t.(reg := Registry.Rekeyed(w.reg, pid, w.store.pending[pid].pairing.did),
                  wired := w.wired - {w.reg.pendings[pid]})
      else t
  }

  function Delivered(legacy: Did -> Pid, w: World, m: Mail, now: int, secret: Reads, saveOk: bool,
                     view: Option<seq<Blob>>): World
  {
    match m
    case Promote(pid, _) => PromotionDelivered(legacy, w, pid, now, secret, saveOk, view)
    case UnpairedBy(did) =>
      w.(reg := Registry.Dropped(w.reg, did, [Registry.Disconnect]), store := Unpaired(legacy, w.store, did, view))
  }

  ghost predicate Happens(legacy: Did -> Pid, owner: Pid -> Did, w: World, h: Happening, v: World) {
    match h
    case Scan(p, now, secretOk) =>
      owner(p.pid) == p.did && v == w.(store := Ingested(legacy, w.store, p, now, secretOk))
    case Begin(pid, c, cfg, token) =>
      && Registry.Brand(w.reg, c) && pid in w.store.pending && pid !in w.reg.pendings
      && cfg.floor == w.store.pending[pid].pairing.minV
      && v == w.(reg := Registry.Begun(w.reg, pid, c), wired := w.wired + {c},
                 cells := w.cells[c := Cell(pid, w.store.pending[pid].pairing.did, cfg, Relay.Built(token), 0)])
    case Open(did, c, cfg, token) =>
      && Registry.Brand(w.reg, c) && did in w.store.ptr.index && cfg.floor == FloorOf(w.store, did)
      && v == w.(reg := Registry.Opened(w.reg, did, c), wired := w.wired - {c},
                 cells := w.cells[c := Cell(w.store.ptr.index[did], did, cfg, Relay.Built(token), 0)])
    case Nudge(c) =>
      c in w.reg.clients.Values + w.reg.pendings.Values && v == w.(reg := Registry.Called(w.reg, c, [Registry.Connect]))
    case Cancel(pid) =>
      v == w.(reg := Registry.DroppedPending(w.reg, pid), store := PendingRemoved(w.store, pid))
    case Remove(did, view) =>
      && OwnedEnumeration(owner, view)
      && v == w.(reg := Registry.Dropped(w.reg, did, [Registry.SendUnpair, Registry.Disconnect]),
                 store := Unpaired(legacy, w.store, did, view))
    case Hide(did, view) =>
      && OwnedEnumeration(owner, view)
      && v == w.(reg := Registry.DroppedPendings(Registry.Dropped(w.reg, did, [Registry.Disconnect]),
                                                 PendingOf(w.store, did, w.store.pendingOrder)),
                 store := Hidden(w.store, did, view))
    case Deliver(m, now, secret, saveOk, view) =>
      && m in w.mail && OwnedEnumeration(owner, view)
      && var x := w.(mail := w.mail - multiset{m});
         v == Delivered(legacy, x, m, now, secret, saveOk, view)
    case Take(c, tokenFresh) =>
      && c in w.cells && w.cells[c].taken < |Registry.Queue(w.reg, c)|
      && var cell := w.cells[c];
         var step := StepOf(Registry.Queue(w.reg, c)[cell.taken], tokenFresh);
         var state := if step.None? then cell.state else Relay.Next(cell.cfg, cell.state, step.value).0;
         v == w.(cells := w.cells[c := cell.(state := state, taken := cell.taken + 1)])
    case Internal(c, step) =>
      && c in w.cells && IsInternal(step) && Relay.Possible(w.cells[c].state, step)
      && (step.Receive? ==> step.floor == LookedUp(w.store, w.cells[c]))
      && var cell := w.cells[c];
         var (state, effects) := Relay.Next(cell.cfg, cell.state, step);
         v == w.(cells := w.cells[c := cell.(state := state)],
                 store := StoreAfterAll(w.store, cell.pid, cell.did, effects),
                 mail := w.mail + Posted(c in w.wired, cell.pid, effects))
    case Outside(e) =>
      && !e.Ingesting? && !e.Promoting? && !e.Hiding? && !e.Unpairing? && !e.Relaunching?
      && Step(legacy, owner, w.store, e, v.store) && v == w.(store := v.store)
    case Relaunch =>
      v == BLANK.(store := w.store.(lastGood := None))
  }

  /** From its first world on, each world follows from the one before. */
  ghost predicate Unfolds(legacy: Did -> Pid, owner: Pid -> Did, happenings: seq<Happening>, worlds: seq<World>) {
    && |worlds| == |happenings| + 1
    && forall i :: 0 <= i < |happenings| ==> Happens(legacy, owner, worlds[i], happenings[i], worlds[i + 1])
  }

  ghost predicate History(legacy: Did -> Pid, owner: Pid -> Did, happenings: seq<Happening>, worlds: seq<World>) {
    Unfolds(legacy, owner, happenings, worlds) && worlds[0] == BLANK
  }
}
