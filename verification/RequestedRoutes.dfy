/** From the bytes that programs send to the routes that packets take. */
module RequestedRoutes {
  import opened Routing
  import opened RoutingHistory
  import opened NetlinkWire
  import opened NetlinkCodec
  import opened NetlinkRequests
  import opened Sim
  import opened EndToEnd

  /** A route request: what it asks for, and the fields that make no difference. */
  datatype Asked = Asked(op: RouteOp, fields: Fields)

  predicate Requests(rs: seq<Asked>) {
    forall i :: 0 <= i < |rs| ==> FieldsOk(rs[i].fields)
  }

  /** The bytes of the requests one behind the other. */
  function Sent(rs: seq<Asked>): Bytes
    requires Requests(rs)
  {
    if rs == [] then [] else RouteRequest(rs[0].op, rs[0].fields) + Sent(rs[1..])
  }

  function Messages(rs: seq<Asked>): seq<Msg>
    requires Requests(rs)
  {
    if rs == [] then [] else [RouteMessage(rs[0].op, rs[0].fields)] + Messages(rs[1..])
  }

  /** What they ask for, in order. */
  function Changes(rs: seq<Asked>): seq<RouteOp> {
    if rs == [] then [] else [rs[0].op] + Changes(rs[1..])
  }

  lemma {:induction false} MessagesOk(rs: seq<Asked>, devs: seq<Device>)
    requires Requests(rs)
    ensures AllWellFormed(Messages(rs), devs) && EncMsgs(Messages(rs), devs) == Sent(rs)
    ensures OpsOf(Meanings(Messages(rs), devs)) == Changes(rs)
  {
    if rs != [] {
      var m, ms := RouteMessage(rs[0].op, rs[0].fields), Messages(rs[1..]);
      RouteMessageOk(rs[0].op, rs[0].fields, devs);
      RouteBytes(rs[0].op, rs[0].fields, devs);
      MessagesOk(rs[1..], devs);
      assert Messages(rs)[1..] == ms;
      assert Meanings(Messages(rs), devs)[1..] == Meanings(ms, devs);
    }
  }

  // ---- Runs ---------------------------------------------------------------------------------------

  /** Buffer by buffer, these requests. */
  ghost predicate AskedIn(bufs: seq<Bytes>, asked: seq<seq<Asked>>) {
    |bufs| == |asked| && forall k :: 0 <= k < |bufs| ==> Requests(asked[k]) && bufs[k] == Sent(asked[k])
  }

  ghost predicate AllRequests(asked: seq<seq<Asked>>) {
    forall k :: 0 <= k < |asked| ==> Requests(asked[k])
  }

  ghost function Traffic(asked: seq<seq<Asked>>): seq<seq<Msg>>
    requires AllRequests(asked)
  {
    if asked == [] then [] else [Messages(asked[0])] + Traffic(asked[1..])
  }

  function AllChanges(asked: seq<seq<Asked>>): seq<RouteOp> {
    if asked == [] then [] else Changes(asked[0]) + AllChanges(asked[1..])
  }

  lemma {:induction false} TrafficOk(bufs: seq<Bytes>, asked: seq<seq<Asked>>, devs: seq<Device>)
    requires AskedIn(bufs, asked)
    ensures Encodes(bufs, Traffic(asked), devs) && OpsOf(TrafficMeaning(Traffic(asked), devs)) == AllChanges(asked)
  {
    if asked != [] {
      MessagesOk(asked[0], devs);
      TrafficOk(bufs[1..], asked[1..], devs);
      TrafficCons(bufs, asked, devs);
      EffectsConcat(Meanings(Messages(asked[0]), devs), TrafficMeaning(Traffic(asked[1..]), devs));
    }
  }

  lemma TrafficCons(bufs: seq<Bytes>, asked: seq<seq<Asked>>, devs: seq<Device>)
    requires AskedIn(bufs, asked) && asked != [] && Encodes(bufs[1..], Traffic(asked[1..]), devs)
    requires AllWellFormed(Messages(asked[0]), devs) && EncMsgs(Messages(asked[0]), devs) == Sent(asked[0])
    ensures Encodes(bufs, Traffic(asked), devs) && Traffic(asked)[0] == Messages(asked[0]) &&
            Traffic(asked)[1..] == Traffic(asked[1..])
  {
    var t := Traffic(asked);
    assert t[1..] == Traffic(asked[1..]);
    forall k | 0 <= k < |bufs| ensures AllWellFormed(t[k], devs) && bufs[k] == EncMsgs(t[k], devs) {
      if k > 0 {
        assert t[k] == t[1..][k - 1] && bufs[k] == bufs[1..][k - 1];
      }
    }
  }

  /**
   * After any run from the start of the application in which the buffers sent on netlink sockets are route requests,
   * byte for byte as above, the table is the net effect of what was asked, and lookups follow the longest prefix over
   * it.
   */
  lemma RoutesAsRequested(app: App, p: Pid, steps: seq<Step>, asked: seq<seq<Asked>>, ifs: seq<seq<IfAddr>>, dst: Ipv4)
    requires !RunAll(Initial(app, p), steps).halted && AskedIn(AllBuffers(Initial(app, p), steps), asked)
    ensures var h, table := AllChanges(asked), RunAll(Initial(app, p), steps).table;
            KeysDistinct(table) && Abs(table) == NetEffect(map[], h) &&
            (ValidLengths(table) ==> DecidedByHistory(h, ifs, dst, OutputOf(Decide(table, ifs, dst))))
  {
    TrafficOk(AllBuffers(Initial(app, p), steps), asked, app.devices);
    RoutesEndToEnd(app, p, steps, Traffic(asked), ifs, dst);
  }
}
