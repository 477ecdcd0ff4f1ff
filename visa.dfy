/** An abstract instrument bus in the shape the driver uses it: a resource manager that lists
    resources, opens sessions on them, and carries writes and queries over an open session.

    What the instruments answer is a script: every query text other than `*IDN?` has a queue of
    replies, and each query reads the next one; an empty queue means the instrument never answers
    and the query times out. `*IDN?` is answered by the resource a session was opened on. Everything
    that reaches the bus is recorded, in order, in `log`. */
module Visa {
  import opened Wrappers

  /** The interface kind reported by a resource (only USB matters to the driver). */
  datatype Interface = Usb | OtherInterface

  /** A resource as enumerated: its address, whether opening it succeeds, its interface kind and
      its reply to `*IDN?` (None: the query fails with an I/O error). */
  datatype Resource = Resource(address: string, opens: bool, kind: Interface, identity: Option<string>)

  /** What reached the bus. Sessions are numbered in the order they were opened. */
  datatype Event =
    | Opened(session: nat, resource: nat)
    | Closed(session: nat)
    | Wrote(session: nat, command: string)
    | Asked(session: nat, query: string)
    | Fetched(session: nat, query: string, points: int)

  /** The transport's own exceptions: an I/O error (timeout, failed open), or use of a session
      that has been closed. */
  datatype Fault = IoError | InvalidSession

  const IdnQuery := "*IDN?"

  /** The first resource listed under `address`, which is the one opening that address reaches. */
  function FirstWithAddress(rs: seq<Resource>, address: string): (k: Option<nat>)
    ensures k.Some? ==> k.value < |rs| && rs[k.value].address == address
    ensures k.Some? ==> forall j :: 0 <= j < k.value ==> rs[j].address != address
    ensures k.None? ==> forall j :: 0 <= j < |rs| ==> rs[j].address != address
    decreases |rs|
  {
    if rs == [] then None
    else if rs[0].address == address then Some(0)
    else match FirstWithAddress(rs[1..], address)
      case None => None
      case Some(k) => Some(k + 1)
  }

  class ResourceManager {
    var resources: seq<Resource>
    var replies: map<string, seq<string>>
    var curves: seq<seq<int>>
    /** The resource each session was opened on, by session number. */
    var sessions: seq<Resource>
    var closed: set<nat>
    /** Open sessions whose instrument has stopped answering `*IDN?` (switched off, unplugged). */
    var lost: set<nat>
    var log: seq<Event>

    constructor (resources: seq<Resource>, replies: map<string, seq<string>>, curves: seq<seq<int>>)
      ensures this.resources == resources && this.replies == replies && this.curves == curves
      ensures sessions == [] && closed == {} && lost == {} && log == []
      ensures Valid()
    {
      this.resources := resources;
      this.replies := replies;
      this.curves := curves;
      sessions := [];
      closed := {};
      lost := {};
      log := [];
    }

    /** Only sessions that were opened can have been closed or lost. */
    ghost predicate Valid()
      reads this`sessions, this`closed, this`lost
    {
      && (forall s :: s in closed ==> s < |sessions|)
      && (forall s :: s in lost ==> s < |sessions|)
    }

    predicate IsOpen(s: nat)
      reads this`sessions, this`closed
    {
      s < |sessions| && s !in closed
    }

    /** The replies still scripted for query `q`. */
    function Pending(q: string): seq<string>
      reads this`replies
    {
      if q in replies then replies[q] else []
    }

    /** What a query `q` on open session `s` reads now: `*IDN?` times out once the session is lost. */
    function Answer(s: nat, q: string): Result<string, Fault>
      requires IsOpen(s)
      reads this`sessions, this`closed, this`lost, this`replies
    {
      if q == IdnQuery then
        if s in lost then Err(IoError)
        else match sessions[s].identity
        case Some(id) => Ok(id)
        case None => Err(IoError)
      else if Pending(q) == [] then Err(IoError)
      else Ok(Pending(q)[0])
    }

    /** The script once a query `q` has been answered. */
    function AfterQuery(q: string): map<string, seq<string>>
      reads this`replies
    {
      if q != IdnQuery && Pending(q) != [] then replies[q := Pending(q)[1..]] else replies
    }

    /** `open_resource` on the i-th listed resource: a new session, or an I/O error. */
    method OpenResource(i: nat) returns (s: Option<nat>)
      modifies this`sessions, this`log
      ensures old(i < |resources| && resources[i].opens) ==>
        && s == Some(old(|sessions|))
        && sessions == old(sessions) + [resources[i]]
        && log == old(log) + [Opened(s.value, i)]
      ensures !old(i < |resources| && resources[i].opens) ==>
        s == None && sessions == old(sessions) && log == old(log)
    {
      if i < |resources| && resources[i].opens {
        s := Some(|sessions|);
        sessions := sessions + [resources[i]];
        log := log + [Opened(s.value, i)];
      } else {
        s := None;
      }
    }

    /** `open_resource(address)`: the first resource listed under that address. */
    method OpenAddress(address: string) returns (s: Option<nat>)
      modifies this`sessions, this`log
      ensures match FirstWithAddress(resources, address)
        case None => s == None && sessions == old(sessions) && log == old(log)
        case Some(i) =>
          if resources[i].opens then
            && s == Some(old(|sessions|))
            && sessions == old(sessions) + [resources[i]]
            && log == old(log) + [Opened(s.value, i)]
          else s == None && sessions == old(sessions) && log == old(log)
    {
      var found := FirstWithAddress(resources, address);
      if found.None? {
        return None;
      }
      s := OpenResource(found.value);
    }

    /** `close()`: ends an open session; closing a closed session does nothing. */
    method Close(s: nat)
      modifies this`closed, this`log
      ensures old(IsOpen(s)) ==> closed == old(closed) + {s} && log == old(log) + [Closed(s)]
      ensures !old(IsOpen(s)) ==> closed == old(closed) && log == old(log)
    {
      if IsOpen(s) {
        closed := closed + {s};
        log := log + [Closed(s)];
      }
    }

    /** The instrument behind session `s` stops answering `*IDN?`. Not a driver call: an event of
        the environment, between driver calls. */
    method Lose(s: nat)
      modifies this`lost
      ensures lost == old(lost) + (if s < |sessions| then {s} else {})
    {
      if s < |sessions| {
        lost := lost + {s};
      }
    }

    /** `write(command)` on session `s`. */
    method Write(s: nat, command: string) returns (r: Outcome<Fault>)
      modifies this`log
      ensures IsOpen(s) ==> r == Done && log == old(log) + [Wrote(s, command)]
      ensures !IsOpen(s) ==> r == Raised(InvalidSession) && log == old(log)
    {
      if !IsOpen(s) {
        return Raised(InvalidSession);
      }
      log := log + [Wrote(s, command)];
      r := Done;
    }

    /** `query(q)` on session `s`: sends `q` and reads the reply. */
    method Query(s: nat, q: string) returns (r: Result<string, Fault>)
      modifies this`replies, this`log
      ensures IsOpen(s) ==>
        r == old(Answer(s, q)) && replies == old(AfterQuery(q)) && log == old(log) + [Asked(s, q)]
      ensures !IsOpen(s) ==> r == Err(InvalidSession) && replies == old(replies) && log == old(log)
    {
      if !IsOpen(s) {
        return Err(InvalidSession);
      }
      r := Answer(s, q);
      replies := AfterQuery(q);
      log := log + [Asked(s, q)];
    }

    /** `query_binary_values(q, data_points=points)` on session `s`: the next scripted curve,
        already decoded into integers. */
    method QueryBinary(s: nat, q: string, points: int) returns (r: Result<seq<int>, Fault>)
      modifies this`curves, this`log
      ensures IsOpen(s) && old(curves) != [] ==>
        r == Ok(old(curves)[0]) && curves == old(curves)[1..] && log == old(log) + [Fetched(s, q, points)]
      ensures IsOpen(s) && old(curves) == [] ==>
        r == Err(IoError) && curves == [] && log == old(log) + [Fetched(s, q, points)]
      ensures !IsOpen(s) ==> r == Err(InvalidSession) && curves == old(curves) && log == old(log)
    {
      if !IsOpen(s) {
        return Err(InvalidSession);
      }
      log := log + [Fetched(s, q, points)];
      if curves == [] {
        return Err(IoError);
      }
      r := Ok(curves[0]);
      curves := curves[1..];
    }
  }
}
