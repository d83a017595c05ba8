/**
 * pkg/maas/machine.go: MachineManager, which keeps the history of the known states
 * of one machine and appends a state after each successful API operation.
 *
 * The API client (MachineFetcher) is network I/O: each operation takes it as a
 * function from the request it is sent to its reply, and reports the request it sent.
 * The JSON decoder (NewMachine) is opaque and fixed when the manager is built: like
 * json.Unmarshal into a zero Machine, it yields whatever it decoded together with its
 * error.
 */
module MachineManagement {
  import opened Wrappers

  type Bytes = seq<bv8>

  /** An error from the API client or from the decoder, carried through unchanged. */
  datatype Error = Error(message: string)

  /** The scalar and list fields of the machine endpoint's record. */
  datatype Machine = Machine(
    deployTags: seq<string>, tags: seq<string>, ipAddresses: seq<string>,
    routers: seq<string>, tagNames: seq<string>,
    architecture: string, bootType: string, distroSeries: string, hostname: string,
    deployHostname: string, osystem: string, owner: string, powerState: string,
    powerType: string, resourceURI: string, systemID: string, userData: string,
    hweKernel: string, comment: string,
    cpuCount: int, memory: int, status: int, storage: int, swapSize: int,
    disableIPv4: bool, releaseErase: bool, releaseEraseSecure: bool,
    releaseEraseQuick: bool, netboot: bool)

  datatype CommissionParams = CommissionParams(
    enableSSH: int, skipBMCConfig: int, skipNetworking: int, skipStorage: int,
    commissioningScripts: string, testingScripts: string)

  datatype DeployParams = DeployParams(
    userData: string, distroSeries: string, hweKernel: string, agentName: string,
    comment: string, bridgeFD: int, bridgeAll: bool, bridgeSTP: bool,
    installRackD: bool, installKVM: bool)

  /** The calls a MachineFetcher answers; Deploy passes a possibly nil pointer on. */
  datatype Request =
    | Get(systemID: string)
    | Commission(systemID: string, commission: CommissionParams)
    | Deploy(systemID: string, deploy: Option<DeployParams>)
    | Lock(systemID: string, comment: string)

  type Fetcher = Request -> Result<Bytes, Error>
  /** NewMachine's two results: the machine as far as it was decoded, and the decoding error. */
  datatype Decoded = Decoded(machine: Machine, err: Option<Error>)

  type Parser = Bytes -> Decoded

  /** The history and the error after one reply is handled. */
  datatype Outcome = Outcome(history: seq<Machine>, err: Option<Error>)

  /**
   * How an operation handles the client's reply: a reply that parses appends exactly
   * the parsed machine; a client error or a parse error is returned and leaves the
   * history as it was.
   */
  function Handle(history: seq<Machine>, reply: Result<Bytes, Error>, parse: Parser): (o: Outcome)
    ensures o.err.None? <==> reply.Success? && parse(reply.value).err.None?
    ensures o.err.None? ==> o.history == history + [parse(reply.value).machine]
    ensures o.err.Some? ==> o.history == history
    ensures reply.Failure? ==> o.err == Some(reply.error)
    ensures reply.Success? && parse(reply.value).err.Some? ==> o.err == Some(parse(reply.value).err.value)
  {
    match reply
    case Failure(e) => Outcome(history, Some(e))
    case Success(data) =>
      var decoded := parse(data);
      if decoded.err.Some? then Outcome(history, decoded.err) else Outcome(history + [decoded.machine], None)
  }

  /** The history after a series of replies, each handled in turn. */
  function Replay(history: seq<Machine>, replies: seq<Result<Bytes, Error>>, parse: Parser): seq<Machine>
    decreases |replies|
  {
    if replies == [] then history
    else Replay(Handle(history, replies[0], parse).history, replies[1..], parse)
  }

  /** How many of the replies carry data that parses. */
  function Successes(replies: seq<Result<Bytes, Error>>, parse: Parser): (n: nat)
    ensures n <= |replies|
    decreases |replies|
  {
    if replies == [] then 0
    else (if replies[0].Success? && parse(replies[0].value).err.None? then 1 else 0)
         + Successes(replies[1..], parse)
  }

  /**
   * The history never shrinks and is never rewritten: whatever the replies, the old
   * history is a prefix of the new one, which has grown by one state per reply that
   * parsed.
   */
  lemma {:induction false} ReplayOnlyAppends(history: seq<Machine>, replies: seq<Result<Bytes, Error>>, parse: Parser)
    ensures |Replay(history, replies, parse)| == |history| + Successes(replies, parse)
    ensures Replay(history, replies, parse)[..|history|] == history
    decreases |replies|
  {
    if replies != [] {
      var next := Handle(history, replies[0], parse).history;
      ReplayOnlyAppends(next, replies[1..], parse);
      assert next[..|history|] == history;
      assert Replay(history, replies, parse)[..|history|] == next[..|history|];
    }
  }

  /** After a series of replies, the current state is the one parsed from the last reply that parsed. */
  lemma {:induction false} ReplayCurrent(history: seq<Machine>, replies: seq<Result<Bytes, Error>>, parse: Parser, i: nat)
    requires i < |replies| && replies[i].Success? && parse(replies[i].value).err.None?
    requires forall j :: i < j < |replies| ==> replies[j].Failure? || parse(replies[j].value).err.Some?
    ensures var h := Replay(history, replies, parse); h != [] && h[|h| - 1] == parse(replies[i].value).machine
    decreases |replies|
  {
    var next := Handle(history, replies[0], parse).history;
    if i == 0 {
      ReplayOnlyAppends(next, replies[1..], parse);
      assert Successes(replies[1..], parse) == 0 by {
        NoSuccesses(replies[1..], parse);
      }
    } else {
      ReplayCurrent(next, replies[1..], parse, i - 1);
    }
  }

  lemma {:induction false} NoSuccesses(replies: seq<Result<Bytes, Error>>, parse: Parser)
    requires forall j :: 0 <= j < |replies| ==> replies[j].Failure? || parse(replies[j].value).err.Some?
    ensures Successes(replies, parse) == 0
    decreases |replies|
  {
    if replies != [] {
      NoSuccesses(replies[1..], parse);
    }
  }

  class MachineManager {
    /** The known states of the machine, oldest first. */
    var state: seq<Machine>
    /** The decoder applied to every reply (NewMachine). */
    const parse: Parser

    /** A manager always knows at least one state: the one it was built from. */
    predicate Valid()
      reads this
    {
      |state| > 0
    }

    constructor Init(m: Machine, parse: Parser)
      ensures Valid() && state == [m] && this.parse == parse
      ensures Current() == m && SystemID() == m.systemID
    {
      state := [m];
      this.parse := parse;
    }

    /**
     * NewMachineManager: fetches the machine by its system ID. A client error or a
     * parse error is returned with no manager; otherwise the manager's history is
     * exactly the parsed machine.
     */
    static method NewMachineManager(systemID: string, client: Fetcher, parse: Parser)
      returns (m: MachineManager?, err: Option<Error>, sent: Request)
      ensures sent == Get(systemID)
      ensures m == null <==> err.Some?
      ensures client(sent).Failure? ==> err == Some(client(sent).error)
      ensures client(sent).Success? && parse(client(sent).value).err.Some? ==>
                err == Some(parse(client(sent).value).err.value)
      ensures m != null ==> fresh(m) && m.Valid() && m.parse == parse
      ensures m != null ==> client(sent).Success? && parse(client(sent).value).err.None?
      ensures m != null ==> m.state == [parse(client(sent).value).machine]
      ensures m != null ==> m.SystemID() == parse(client(sent).value).machine.systemID
    {
      sent := Get(systemID);
      var res := client(sent);
      if res.Failure? {
        return null, Some(res.error), sent;
      }
      var machine := parse(res.value);
      if machine.err.Some? {
        return null, machine.err, sent;
      }
      m := new MachineManager.Init(machine.machine, parse);
      err := None;
    }

    /** Current: the most recent known state. */
    function Current(): (c: Machine)
      requires Valid()
      reads this
    {
      state[|state| - 1]
    }

    /** SystemID: the system ID of the most recent known state. */
    function SystemID(): (id: string)
      requires Valid()
      reads this
    {
      Current().systemID
    }

    method Append(current: Machine)
      requires Valid()
      modifies this
      ensures Valid()
      ensures state == old(state) + [current]
      ensures Current() == current
    {
      state := state + [current];
    }

    method AppendBytes(data: Bytes) returns (err: Option<Error>)
      requires Valid()
      modifies this
      ensures Valid()
      ensures Outcome(state, err) == Handle(old(state), Success(data), parse)
    {
      var next := parse(data);
      if next.err.None? {
        Append(next.machine);
      }
      err := next.err;
    }

    /** The shared tail of Commission, Deploy and Lock: append the parsed reply, if any. */
    method Apply(res: Result<Bytes, Error>) returns (err: Option<Error>)
      requires Valid()
      modifies this
      ensures Valid()
      ensures Outcome(state, err) == Handle(old(state), res, parse)
    {
      if res.Success? {
        err := AppendBytes(res.value);
      } else {
        err := Some(res.error);
      }
    }

    /** Commission: asks the client to commission the current system ID. */
    method Commission(params: CommissionParams, client: Fetcher) returns (err: Option<Error>, sent: Request)
      requires Valid()
      modifies this
      ensures Valid()
      ensures sent == Request.Commission(old(SystemID()), params)
      ensures Outcome(state, err) == Handle(old(state), client(sent), parse)
    {
      sent := Request.Commission(SystemID(), params);
      err := Apply(client(sent));
    }

    /** Deploy: asks the client to deploy the current system ID. */
    method Deploy(params: Option<DeployParams>, client: Fetcher) returns (err: Option<Error>, sent: Request)
      requires Valid()
      modifies this
      ensures Valid()
      ensures sent == Request.Deploy(old(SystemID()), params)
      ensures Outcome(state, err) == Handle(old(state), client(sent), parse)
    {
      sent := Request.Deploy(SystemID(), params);
      err := Apply(client(sent));
    }

    /** Lock: asks the client to lock the current system ID, with a comment. */
    method Lock(comment: string, client: Fetcher) returns (err: Option<Error>, sent: Request)
      requires Valid()
      modifies this
      ensures Valid()
      ensures sent == Request.Lock(old(SystemID()), comment)
      ensures Outcome(state, err) == Handle(old(state), client(sent), parse)
    {
      sent := Request.Lock(SystemID(), comment);
      err := Apply(client(sent));
    }

    /**
     * update: fetches and parses the current state without recording it. A client
     * error comes back with a nil machine; a decoding error comes back with the machine
     * as far as it was decoded.
     */
    method FetchCurrent(client: Fetcher) returns (ma: Option<Machine>, err: Option<Error>, sent: Request)
      requires Valid()
      ensures sent == Get(SystemID())
      ensures ma.None? <==> client(sent).Failure?
      ensures client(sent).Failure? ==> err == Some(client(sent).error)
      ensures client(sent).Success? ==> ma == Some(parse(client(sent).value).machine) && err == parse(client(sent).value).err
    {
      sent := Get(SystemID());
      var res := client(sent);
      if res.Failure? {
        return None, Some(res.error), sent;
      }
      var machine := parse(res.value);
      ma, err := Some(machine.machine), machine.err;
    }

    /**
     * Update: fetches the current state and appends exactly the machine it returns,
     * only when there is no error; the machine returned then becomes the current one.
     */
    method Update(client: Fetcher) returns (ma: Option<Machine>, err: Option<Error>, sent: Request)
      requires Valid()
      modifies this
      ensures Valid()
      ensures sent == Get(old(SystemID()))
      ensures Outcome(state, err) == Handle(old(state), client(sent), parse)
      ensures err.None? ==> ma.Some? && state == old(state) + [ma.value] && Current() == ma.value
      ensures err.Some? ==> Current() == old(Current())
      ensures client(sent).Success? ==> ma == Some(parse(client(sent).value).machine)
    {
      ma, err, sent := FetchCurrent(client);
      if err.None? {
        Append(ma.value);
      }
    }
  }
}
