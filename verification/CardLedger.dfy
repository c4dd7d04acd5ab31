/**
 What one card shows and when, told by the history of its ledger: the reports, phases and
 offers since the card was opened.
 */
module CardLedger {
  import opened Wrappers
  import opened WorkflowProgress

  /** A card that was just opened. */
  predicate IsNew(c: Card) {
    && c.ledger.agents == [] && c.ledger.phases == map[] && c.ledger.lastTouched == None
    && c.ledger.status == Running && c.lastRender == None && c.lastEmit == None
  }

  // ---------------------------------------------------------------- what the ledger holds

  /** The agents in the order they were first reported in. */
  function FirstReports(ops: seq<CardOp>): seq<string> {
    if ops == [] then [] else
    var earlier, last := FirstReports(ops[..|ops|-1]), ops[|ops|-1];
    if last.Report? && last.ref !in earlier then earlier + [last.ref] else earlier
  }

  /** The title a phase was given last. */
  function LastTitle(ops: seq<CardOp>, index: nat): Option<string> {
    if ops == [] then None else
    var last := ops[|ops|-1];
    if last.Phase? && last.index == index then Some(last.title) else LastTitle(ops[..|ops|-1], index)
  }

  function LastReported(ops: seq<CardOp>): Option<string> {
    if ops == [] then None else
    var last := ops[|ops|-1];
    if last.Report? then Some(last.ref) else LastReported(ops[..|ops|-1])
  }

  function EndStatus(ops: seq<CardOp>): CardStatus {
    if ops == [] then Running else
    var last := ops[|ops|-1];
    if last.End? then last.status else EndStatus(ops[..|ops|-1])
  }

  function Refs(agents: seq<Agent>): seq<string> {
    seq(|agents|, i requires 0 <= i < |agents| => agents[i].ref)
  }

  lemma OpMovesLedger(style: Style, c: Card, op: CardOp)
    ensures var l, l' := c.ledger, ApplyOp(style, c, op).ledger;
            && l'.kind == l.kind && l'.callId == l.callId && l'.toolName == l.toolName && l'.args == l.args
            && l'.taskId == l.taskId && l'.desc == l.desc && l'.startedAt == l.startedAt
            && l'.phases == (if op.Phase? then l.phases[op.index := op.title] else l.phases)
            && l'.lastTouched == (if op.Report? then Some(op.ref) else l.lastTouched)
            && l'.status == (if op.End? then op.status else l.status)
            && Refs(l'.agents) == if op.Report? && op.ref !in Refs(l.agents) then Refs(l.agents) + [op.ref] else Refs(l.agents)
  {
    hide Merge, Render;
    var agents := c.ledger.agents;
    if op.Report? {
      var i := Position(agents, op.ref);
      if i < |agents| {
        assert Refs(agents)[i] == op.ref;
      } else {
        assert forall j :: 0 <= j < |agents| ==> Refs(agents)[j] != op.ref;
      }
    }
  }

  /** Everything a ledger holds besides the agents' fields, by history. */
  lemma {:induction false} LedgerIsHistory(style: Style, c: Card, ops: seq<CardOp>)
    requires IsNew(c)
    ensures var l := ApplyOps(style, c, ops).ledger;
            && l == c.ledger.(phases := l.phases, agents := l.agents, status := EndStatus(ops), lastTouched := LastReported(ops))
            && (forall index: nat :: Get(l.phases, index) == LastTitle(ops, index))
            && Refs(l.agents) == FirstReports(ops)
  {
    hide ApplyOp;
    if ops != [] {
      LedgerIsHistory(style, c, ops[..|ops|-1]);
      OpMovesLedger(style, ApplyOps(style, c, ops[..|ops|-1]), ops[|ops|-1]);
    }
  }

  // ---------------------------------------------------------------- what an emission shows

  /** The rows of a workflow card: one an agent, named by its label, done when its loop is. */
  ghost predicate ShowsAgents(style: Style, l: Ledger, ops: seq<CardOp>, entries: seq<GroupEntry>) {
    var refs := FirstReports(ops);
    && |entries| == |refs|
    && forall i :: 0 <= i < |refs| ==>
         && entries[i].callId == l.callId + ":" + refs[i]
         && entries[i].name == Or(Latest(ops, refs[i]).agentLabel, Some(refs[i])).value
         && (entries[i].status == Success <==> Latest(ops, refs[i]).loopState == Some(Done))
         && entries[i].description == style.agentLine(l, Latest(ops, refs[i]))
  }

  lemma RenderMeans(style: Style, l: Ledger, now: int)
    ensures var r := Render(style, l, now);
            && r.description == style.headline(l, if now > l.startedAt then now - l.startedAt else 0)
            && (l.kind == BackgroundTask ==> r.output == "" && r.entries == [])
            && (l.kind == Workflow ==>
                  && r.output == style.tree(l) && |r.entries| == |l.agents|
                  && forall i :: 0 <= i < |l.agents| ==>
                       && r.entries[i].callId == l.callId + ":" + l.agents[i].ref
                       && r.entries[i].name == Or(l.agents[i].entry.agentLabel, Some(l.agents[i].ref)).value
                       && (r.entries[i].status == Success <==> l.agents[i].entry.loopState == Some(Done))
                       && r.entries[i].description == style.agentLine(l, l.agents[i].entry))
  {
  }

  /** What the ledger renders is what was reported, with the time since the card was opened. */
  lemma RenderShowsHistory(style: Style, c: Card, ops: seq<CardOp>, now: int)
    requires IsNew(c)
    ensures var l := ApplyOps(style, c, ops).ledger; var r := Render(style, l, now);
            && r.description == style.headline(l, if now > c.ledger.startedAt then now - c.ledger.startedAt else 0)
            && (c.ledger.kind == BackgroundTask ==> r.output == "" && r.entries == [])
            && (c.ledger.kind == Workflow ==> r.output == style.tree(l) && ShowsAgents(style, l, ops, r.entries))
  {
    hide Latest, ApplyOps, Render, Reported, EndStatus, LastTitle, LastReported, FirstReports;
    LedgerIsHistory(style, c, ops);
    RosterIsLatest(style, c, ops);
    var l := ApplyOps(style, c, ops).ledger;
    RenderMeans(style, l, now);
    assert forall i :: 0 <= i < |l.agents| ==> FirstReports(ops)[i] == l.agents[i].ref;
  }

  // ---------------------------------------------------------------- when a card speaks

  lemma {:induction false} LastSentIsRemembered(style: Style, c: Card, ops: seq<CardOp>)
    requires c.lastRender == None && c.lastEmit == None
    ensures var sent, after := AllSent(style, c, ops), ApplyOps(style, c, ops);
            if sent == [] then after.lastRender == None && after.lastEmit == None
            else after.lastRender == Some(sent[|sent|-1].rendered) && after.lastEmit == Some(sent[|sent|-1].at)
  {
    hide Render, Upsert, DeclarePhase, Settle;
    if ops != [] {
      LastSentIsRemembered(style, c, ops[..|ops|-1]);
    }
  }

  /** A background card, or a workflow card some agent was reported to. */
  predicate HasContent(c: Card, ops: seq<CardOp>) {
    c.ledger.kind == BackgroundTask || HasReport(ops)
  }

  /** Nothing was sent yet, or the last emission is half a second old and showed something else. */
  ghost predicate IsOwedNews(style: Style, c: Card, ops: seq<CardOp>, now: int) {
    var sent := AllSent(style, c, ops);
    sent == []
    || (now - sent[|sent|-1].at >= 500 && sent[|sent|-1].rendered != Render(style, ApplyOps(style, c, ops).ledger, now))
  }

  /**
   An offer goes out exactly when the card has content and either is forced or brings news
   the throttle lets through; it then shows what the ledger renders at that moment.
   */
  lemma OfferIsExact(style: Style, c: Card, ops: seq<CardOp>, now: int, forced: bool)
    requires IsNew(c)
    ensures var sent := AllSent(style, c, ops);
            AllSent(style, c, ops + [Offer(now, forced)]) ==
            if HasContent(c, ops) && (forced || IsOwedNews(style, c, ops, now))
            then sent + [Sent(now, forced, Render(style, ApplyOps(style, c, ops).ledger, now))] else sent
  {
    hide Render, ApplyOps, AllSent, HasReport, SentBy;
    LastSentIsRemembered(style, c, ops);
    BlankUntilReported(style, c, ops);
    OneMoreOffer(style, c, ops, now, forced);
    SentByOffer(style, ApplyOps(style, c, ops), now, forced);
    assert AllSent(style, c, ops) + [] == AllSent(style, c, ops);
  }

  lemma OneMoreOffer(style: Style, c: Card, ops: seq<CardOp>, now: int, forced: bool)
    ensures AllSent(style, c, ops + [Offer(now, forced)]) ==
            AllSent(style, c, ops) + SentBy(style, ApplyOps(style, c, ops), Offer(now, forced))
  {
    hide SentBy, ApplyOp;
    assert (ops + [Offer(now, forced)])[..|ops|] == ops;
  }

  lemma SentByOffer(style: Style, c: Card, now: int, forced: bool)
    ensures var r := Render(style, c.ledger, now);
            SentBy(style, c, Offer(now, forced)) ==
            if !(c.ledger.kind == Workflow && c.ledger.agents == [])
               && (forced || (c.lastRender != Some(r) && (c.lastEmit.None? || now - c.lastEmit.value >= 500)))
            then [Sent(now, forced, r)] else []
  {
    hide Render;
  }
}
