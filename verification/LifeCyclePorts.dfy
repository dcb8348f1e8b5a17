/**
 The waves with the order that the ports keep: each actor has one queue, messages are handed to
 it in the order of their publication and handled in that order. A handler is cut at each of its
 publications: it takes a message and sets the state, and then publishes one message at a time;
 the start callbacks of an actor run between the two. Nothing else restricts the interleaving.
 */
module LifeCyclePorts {
  import opened Chains
  import opened LifeCycle

  // The actor without its history.
  function Bare(node: Node): Node { node.(stage := DORMANT) }

  /** In `outboxes` is what the handler that an actor is carrying out has still to publish. */
  datatype Ports = Ports(
    parent: seq<ActorId>,
    nodes: seq<Node>,
    queues: seq<seq<Msg>>,
    outboxes: seq<seq<Msg>>,
    running: bool,
    stops: nat
  )

  predicate Shaped(o: Ports) { IsTree(o.parent) && |o.nodes| == |o.queues| == |o.outboxes| == |o.parent| }

  function Fresh(parent: seq<ActorId>): Ports
    requires IsTree(parent)
  {
    Ports(parent, seq(|parent|, _ => Node(CTOR_FINISHED, 0, 0, 0, DORMANT)),
          seq(|parent|, x => if x == 0 then [Req(StartWave, 0)] else []), seq(|parent|, _ => []), true, 0)
  }

  /** What actor `i` does with a message, its own or, on the root's port, Core's. */
  function React(parent: seq<ActorId>, i: ActorId, node: Node, msg: Msg): Reaction {
    match msg
    case Req(wave, _) => OnReq(wave, i, Kids(parent, i), node)
    case PrivCnf(wave, j) => if j == 0 then Reaction(node, []) else OnCnf(wave, i, Kids(parent, i), node)
    case PubCnf(_, _) => Reaction(node, [])
    case Stop => Reaction(node, [Req(StopWave, 0)])
  }

  /** The messages of `out` that go to the port of `x`, in order. */
  function Mail(parent: seq<ActorId>, out: seq<Msg>, x: ActorId): seq<Msg> {
    if out == [] then []
    else (if Heard(out[0]) && Receiver(parent, out[0]) == x then [out[0]] else []) + Mail(parent, out[1..], x)
  }

  function Post(queues: seq<seq<Msg>>, parent: seq<ActorId>, out: seq<Msg>): (r: seq<seq<Msg>>)
    ensures |r| == |queues| && forall x :: 0 <= x < |r| ==> r[x] == queues[x] + Mail(parent, out, x)
  {
    seq(|queues|, x requires 0 <= x < |queues| => queues[x] + Mail(parent, out, x))
  }

  predicate HasMail(o: Ports, i: ActorId) { i < |o.nodes| && i < |o.queues| && o.queues[i] != [] }

  /** Actor `i`, with no handler under way, takes the oldest message of its port. */
  function Take(o: Ports, i: ActorId): Ports
    requires HasMail(o, i) && i < |o.outboxes|
  {
    var msg := o.queues[i][0];
    var reaction := React(o.parent, i, o.nodes[i], msg);
    o.(nodes := o.nodes[i := Bare(reaction.node)],
       queues := o.queues[i := o.queues[i][1..]],
       outboxes := o.outboxes[i := reaction.out],
       running := o.running && msg != PrivCnf(StopWave, 0))
  }

  predicate HasToPublish(o: Ports, i: ActorId) { i < |o.outboxes| && o.outboxes[i] != [] }

  /** The handler of actor `i` makes its next publication. */
  function Send(o: Ports, i: ActorId): Ports
    requires HasToPublish(o, i)
  {
    o.(queues := Post(o.queues, o.parent, [o.outboxes[i][0]]), outboxes := o.outboxes[i := o.outboxes[i][1..]])
  }

  function WithStop(o: Ports): Ports
    requires |o.queues| > 0
  {
    o.(queues := o.queues[0 := o.queues[0] + [Stop]], stops := o.stops + 1)
  }

  datatype Act = Begin(i: ActorId) | Emit(i: ActorId)

  ghost predicate Acts(o: Ports, act: Act, o': Ports) {
    match act
    case Begin(i) => HasMail(o, i) && i < |o.outboxes| && o.outboxes[i] == [] && o' == Take(o, i)
    case Emit(i) => HasToPublish(o, i) && o' == Send(o, i)
  }

  datatype Turn = Go(act: Act) | Halt(publisher: ActorId)

  ghost predicate Goes(o: Ports, turn: Turn, o': Ports) {
    match turn
    case Go(act) => Acts(o, act, o')
    case Halt(p) => p < |o.nodes| && |o.queues| > 0 && PublishAllowed(o.nodes[p].state, Stop) && o' == WithStop(o)
  }

  ghost predicate CanReach(parent: seq<ActorId>, o: Ports)
    requires IsTree(parent)
  {
    exists states: seq<Ports>, turns: seq<Turn> ::
      IsChain(Goes, states, turns) && states[0] == Fresh(parent) && states[|turns|] == o
  }

  /** Handling messages, and nothing else, may lead from `o` to `o'`. */
  ghost predicate Leads(o: Ports, o': Ports) { Connects(Acts, o, o') }

  // ----- a whole handler -----

  /** Actor `i` handles the oldest message of its port without an interruption. */
  function Serve(o: Ports, i: ActorId): Ports
    requires HasMail(o, i)
  {
    var msg := o.queues[i][0];
    var reaction := React(o.parent, i, o.nodes[i], msg);
    o.(nodes := o.nodes[i := Bare(reaction.node)],
       queues := Post(o.queues[i := o.queues[i][1..]], o.parent, reaction.out),
       running := o.running && msg != PrivCnf(StopWave, 0))
  }

  lemma PostNothing(queues: seq<seq<Msg>>, parent: seq<ActorId>)
    ensures Post(queues, parent, []) == queues
  {
    forall x | 0 <= x < |queues| ensures Post(queues, parent, [])[x] == queues[x] {
      assert Mail(parent, [], x) == [];
    }
  }

  lemma MailOfOne(parent: seq<ActorId>, msg: Msg, x: ActorId)
    ensures Mail(parent, [msg], x) == if Heard(msg) && Receiver(parent, msg) == x then [msg] else []
  {
    assert [msg][1..] == [];
  }

  lemma PostFirstAt(queue: seq<Msg>, parent: seq<ActorId>, out: seq<Msg>, x: ActorId)
    requires out != []
    ensures queue + Mail(parent, [out[0]], x) + Mail(parent, out[1..], x) == queue + Mail(parent, out, x)
  {
    MailOfOne(parent, out[0], x);
    var first, rest := Mail(parent, [out[0]], x), Mail(parent, out[1..], x);
    assert Mail(parent, out, x) == first + rest;
    assert queue + first + rest == queue + (first + rest);
  }

  lemma PostFirst(queues: seq<seq<Msg>>, parent: seq<ActorId>, out: seq<Msg>)
    requires out != []
    ensures Post(Post(queues, parent, [out[0]]), parent, out[1..]) == Post(queues, parent, out)
  {
    var one := [out[0]];
    forall x | 0 <= x < |queues| ensures Post(Post(queues, parent, one), parent, out[1..])[x] == Post(queues, parent, out)[x] {
      PostFirstAt(queues[x], parent, out, x);
    }
  }

  lemma {:induction false} SendsAll(o: Ports, i: ActorId)
    requires i < |o.outboxes|
    ensures Leads(o, o.(queues := Post(o.queues, o.parent, o.outboxes[i]), outboxes := o.outboxes[i := []]))
    decreases |o.outboxes[i]|
  {
    var out := o.outboxes[i];
    var end := o.(queues := Post(o.queues, o.parent, out), outboxes := o.outboxes[i := []]);
    if out == [] {
      PostNothing(o.queues, o.parent);
      assert end.outboxes == o.outboxes;
      ConnectsSelf(Acts, o);
    } else {
      var o1 := Send(o, i);
      SendsAll(o1, i);
      PostFirst(o.queues, o.parent, out);
      assert o1.outboxes[i := []] == end.outboxes;
      ConnectsEarlier(Acts, o, Emit(i), o1, end);
    }
  }

  /** An uninterrupted handler is one way the handler may go. */
  lemma ServeLeads(o: Ports, i: ActorId)
    requires HasMail(o, i) && i < |o.outboxes| && o.outboxes[i] == []
    ensures Leads(o, Serve(o, i))
  {
    var o1 := Take(o, i);
    SendsAll(o1, i);
    assert o1.outboxes[i := []] == o.outboxes;
    ConnectsEarlier(Acts, o, Begin(i), o1, Serve(o, i));
  }

  // ----- what goes where -----

  lemma {:induction false} MailOfRequests(parent: seq<ActorId>, wave: Wave, kids: seq<ActorId>, x: ActorId)
    requires forall a, b :: 0 <= a < b < |kids| ==> kids[a] < kids[b]
    ensures Mail(parent, Requests(wave, kids), x) == if x in kids then [Req(wave, x)] else []
  {
    if kids != [] {
      assert Requests(wave, kids)[1..] == Requests(wave, kids[1..]);
      MailOfRequests(parent, wave, kids[1..], x);
      assert x in kids <==> x == kids[0] || x in kids[1..];
      assert kids[0] !in kids[1..];
    }
  }

  lemma MailOfCnfs(parent: seq<ActorId>, wave: Wave, i: ActorId, x: ActorId)
    ensures Mail(parent, [PubCnf(wave, i), PrivCnf(wave, i)], x)
            == if Heard(PrivCnf(wave, i)) && Receiver(parent, PrivCnf(wave, i)) == x then [PrivCnf(wave, i)] else []
  {
    var out := [PubCnf(wave, i), PrivCnf(wave, i)];
    assert out[1..] == [PrivCnf(wave, i)] && out[1..][1..] == [];
    assert Mail(parent, out[1..], x)
           == if Heard(PrivCnf(wave, i)) && Receiver(parent, PrivCnf(wave, i)) == x then [PrivCnf(wave, i)] else [];
  }

  // ----- what serving does -----

  lemma ServeCounts(o: Ports, i: ActorId, wave: Wave, k: ActorId)
    requires HasMail(o, i) && o.queues[i][0] == PrivCnf(wave, k) && k > 0
    requires o.nodes[i].cnfCount + 1 != |Kids(o.parent, i)|
    ensures Serve(o, i) == o.(nodes := o.nodes[i := Bare(o.nodes[i].(cnfCount := o.nodes[i].cnfCount + 1))],
                              queues := o.queues[i := o.queues[i][1..]])
  {
    PostNothing(o.queues[i := o.queues[i][1..]], o.parent);
  }

  lemma ServeCompletes(o: Ports, i: ActorId, wave: Wave, k: ActorId, x: ActorId)
    requires HasMail(o, i) && o.queues[i][0] == PrivCnf(wave, k) && k > 0 && x < |o.queues|
    requires o.nodes[i].cnfCount + 1 == |Kids(o.parent, i)|
    ensures Serve(o, i) == o.(nodes := o.nodes[i := Bare(Complete(wave, i, o.nodes[i].(cnfCount := 0)).node)],
                              queues := Serve(o, i).queues)
    ensures |Serve(o, i).queues| == |o.queues|
    ensures Serve(o, i).queues[x]
            == (if x == i then o.queues[i][1..] else o.queues[x])
               + (if Heard(PrivCnf(wave, i)) && Receiver(o.parent, PrivCnf(wave, i)) == x then [PrivCnf(wave, i)] else [])
  {
    MailOfCnfs(o.parent, wave, i, x);
  }
}
