/** The provision-now protocol between the controller and one pcprov, over
    every interleaving of operator requests, polls and lossy reports.  Serials
    do not interact, so the protocol is followed one serial at a time. */
module CommandProtocol {
  import opened Ordering
  import opened Provisioning

  /** What happens to the pair of processes. */
  datatype Event =
    | OperatorAsks(serial: string)
    | Polled(devs: seq<Device>, managed: string -> bool, now: int, provisionOk: string -> bool)
    | Reported(fate: Fate)

  /** One serial's line of the protocol.  flagged: in the controller's pending;
      held and acked: in pcprov's pending and ackQueue.  The rest is history,
      requests numbered as they are accepted (a flag going from clear to set):
      those accepted while the serial still waited in ackQueue, how often each
      was carried out (run or refused), and those whose flag was cleared. */
  datatype Line = Line(flagged: bool, held: bool, acked: bool, accepted: nat, late: set<nat>, carried: multiset<nat>, cleared: set<nat>)

  const START := Line(false, false, false, 0, {}, multiset{}, {})

  function Ask(l: Line): Line
  {
    if l.flagged then l
    else l.(flagged := true, accepted := l.accepted + 1, late := if l.acked then l.late + {l.accepted + 1} else l.late)
  }

  /** A poll that finds the device ready runs or refuses a held command. */
  function Consume(l: Line): Line
  {
    if l.held then l.(held := false, acked := true, carried := l.carried + multiset{l.accepted}) else l
  }

  function Exchange(l: Line, fate: Fate): Line
  {
    if fate == LostBefore then l
    else
      var answered := if l.flagged && l.acked then l.(flagged := false, cleared := l.cleared + {l.accepted}) else l;
      if fate == ResponseLost then answered
      else answered.(held := answered.held || answered.flagged, acked := false)
  }

  ghost function Apply(l: Line, e: Event, s: string): Line
  {
    match e
    case OperatorAsks(t) => if t == s then Ask(l) else l
    case Polled(devs, managed, _, _) => if s in Ready(devs, managed) then Consume(l) else l
    case Reported(fate) => Exchange(l, fate)
  }

  /** Serial s after a run. */
  ghost function After(es: seq<Event>, s: string): Line
  {
    if es == [] then START else Apply(After(es[..|es| - 1], s), es[|es| - 1], s)
  }

  // ----- invariant ---------------------------------------------------------------------

  ghost predicate Inv(l: Line)
  {
    // a command pcprov holds is still flagged and not acknowledged
    && (l.held ==> l.flagged && !l.acked)
    // the request a set flag stands for is open
    && (l.flagged ==> l.accepted >= 1 && l.accepted !in l.cleared)
    && (l.flagged && !l.acked ==> l.carried[l.accepted] == 0 && l.accepted !in l.late)
    && (l.flagged && l.acked ==> l.carried[l.accepted] == if l.accepted in l.late then 0 else 1)
    // history concerns accepted requests, each carried out at most once
    && (forall r :: r in l.carried || r in l.cleared || r in l.late ==> 1 <= r <= l.accepted)
    && (forall r :: l.carried[r] <= 1)
    && (forall r :: r in l.late ==> l.carried[r] == 0)
    && (forall r :: r in l.cleared ==> l.carried[r] == if r in l.late then 0 else 1)
    // acknowledgements and cleared flags come after something was carried out
    && (l.acked || l.cleared != {} ==> l.carried != multiset{})
    // every accepted request is cleared, except the one a set flag stands for
    && (forall r :: 1 <= r <= l.accepted && (r < l.accepted || !l.flagged) ==> r in l.cleared)
  }

  lemma AskKeeps(l: Line)
    requires Inv(l)
    ensures Inv(Ask(l))
  {
    assert l.accepted + 1 !in l.carried;
  }

  lemma ConsumeKeeps(l: Line)
    requires Inv(l)
    ensures Inv(Consume(l))
  {
    if l.held { assert l.accepted in Consume(l).carried; }
  }

  lemma ExchangeKeeps(l: Line, fate: Fate)
    requires Inv(l)
    ensures Inv(Exchange(l, fate))
  {
  }

  lemma {:induction false} AfterKeepsInv(es: seq<Event>, s: string)
    ensures Inv(After(es, s))
  {
    hide Inv, Ask, Consume, Exchange;
    if es == [] {
      StartIsFine();
    } else {
      var l := After(es[..|es| - 1], s);
      AfterKeepsInv(es[..|es| - 1], s);
      AskKeeps(l);
      ConsumeKeeps(l);
      match es[|es| - 1] {
        case OperatorAsks(_) =>
        case Polled(_, _, _, _) =>
        case Reported(fate) => ExchangeKeeps(l, fate);
      }
    }
  }

  lemma StartIsFine()
    ensures Inv(START)
  {
  }

  // ----- main results -----------------------------------------------------------------

  /** Over every interleaving: no accepted request is carried out twice; a flag
      is cleared only after some run or refusal of its serial; and a request
      whose flag was cleared was itself carried out if and only if it was not
      accepted while its serial still waited in ackQueue. */
  lemma NoRequestRunsTwice(es: seq<Event>, s: string, r: nat)
    ensures var l := After(es, s);
            && l.carried[r] <= 1
            && (r in l.cleared ==> l.carried != multiset{})
            && (r in l.cleared ==> (l.carried[r] == 1 <==> r !in l.late))
            && (1 <= r <= l.accepted ==> r in l.cleared || (r == l.accepted && l.flagged))
  {
    AfterKeepsInv(es, s);
  }

  /** The next request is late exactly when the serial still waits in ackQueue:
      the response to its last acknowledgement has not arrived. */
  lemma LateMeansAckOutstanding(es: seq<Event>, s: string)
    requires !After(es, s).flagged
    ensures var l, t := After(es, s), After(es + [OperatorAsks(s)], s);
            t.accepted == l.accepted + 1 && t.flagged && (t.accepted in t.late <==> l.acked)
  {
    AfterKeepsInv(es, s);
    assert (es + [OperatorAsks(s)])[..|es|] == es;
  }

  /** The next report that reaches the controller drops a late request without
      carrying it out. */
  lemma LateRequestIsDropped(es: seq<Event>, s: string, fate: Fate)
    requires var l := After(es, s); l.flagged && l.accepted in l.late && fate != LostBefore
    ensures var l, t := After(es, s), After(es + [Reported(fate)], s);
            !t.flagged && !t.held && l.accepted in t.cleared && t.carried[l.accepted] == 0
  {
    AfterKeepsInv(es, s);
    assert (es + [Reported(fate)])[..|es|] == es;
  }

  /** Such requests exist, for any serial that a poll finds ready: carried out
      once, response lost, asked again. */
  lemma RequestsCanBeLate(s: string, poll: Event)
    requires poll.Polled? && s in Ready(poll.devs, poll.managed)
    ensures var l := After([OperatorAsks(s), Reported(Delivered), poll, Reported(ResponseLost), OperatorAsks(s)], s);
            l.flagged && l.accepted == 2 && 2 in l.late
  {
    var es := [OperatorAsks(s), Reported(Delivered), poll, Reported(ResponseLost), OperatorAsks(s)];
    assert After([], s) == START && es[..0] == [] && es[..5] == es;
    hide After, Ready;
    AfterSnoc(es, 0, s);
    AfterSnoc(es, 1, s);
    AfterSnoc(es, 2, s);
    AfterSnoc(es, 3, s);
    AfterSnoc(es, 4, s);
  }

  // ----- the code follows the protocol --------------------------------------------------

  /** The three sets hold exactly the serials whose lines say so. */
  ghost predicate Follows(es: seq<Event>, flagged: set<string>, held: set<string>, acked: set<string>)
  {
    forall s :: var l := After(es, s); (s in flagged <==> l.flagged) && (s in held <==> l.held) && (s in acked <==> l.acked)
  }

  lemma AfterSnoc(es: seq<Event>, i: nat, s: string)
    requires i < |es|
    ensures After(es[..i + 1], s) == Apply(After(es[..i], s), es[i], s)
  {
    assert es[..i + 1][..i] == es[..i];
  }

  /** What one event does to the three sets is what it does to every line. */
  lemma EventFollows(es: seq<Event>, i: nat, flagged: set<string>, held: set<string>, acked: set<string>,
                     flagged': set<string>, held': set<string>, acked': set<string>)
    requires i < |es| && Follows(es[..i], flagged, held, acked)
    requires match es[i]
             case OperatorAsks(s) => flagged' == flagged + {s} && held' == held && acked' == acked
             case Polled(devs, managed, _, _) =>
               var ready := Ready(devs, managed);
               flagged' == flagged && held' == held - ready && acked' == acked + (held * ready)
             case Reported(fate) =>
               if fate == LostBefore then flagged' == flagged && held' == held && acked' == acked
               else flagged' == flagged - acked
                    && (if fate == ResponseLost then held' == held && acked' == acked else held' == held + flagged' && acked' == {})
    ensures Follows(es[..i + 1], flagged', held', acked')
  {
    hide Ready;
    forall s ensures var l := After(es[..i + 1], s); (s in flagged' <==> l.flagged) && (s in held' <==> l.held) && (s in acked' <==> l.acked) {
      AfterSnoc(es, i, s);
      var l := After(es[..i], s);
    }
  }

  /** Whatever the events, a fresh pcprov and a fresh controller go through
      exactly the states of the protocol. */
  method Drive(es: seq<Event>) returns (w: Watcher, c: Controller)
    ensures fresh(w) && fresh(c) && Follows(es, c.pending, w.pending, w.ackQueue)
  {
    w := new Watcher();
    c := new Controller(true);
    assert Follows(es[..0], {}, {}, {});
    hide Follows, Ready, After, Apply;
    for i := 0 to |es|
      invariant fresh(w) && fresh(c) && Follows(es[..i], c.pending, w.pending, w.ackQueue)
    {
      ghost var f, h, a := c.pending, w.pending, w.ackQueue;
      match es[i] {
        case OperatorAsks(s) => c.RequestProvision(s);
        case Polled(devs, managed, now, provisionOk) =>
          var _ := w.Poll(devs, managed, now, provisionOk);
        case Reported(fate) => w.Report(c, fate);
      }
      EventFollows(es, i, f, h, a, c.pending, w.pending, w.ackQueue);
    }
    assert es[..|es|] == es;
  }
}
