/** The dashboard's poller: every tick lists the sites, and the cards and
    the router-status label are rebuilt only when the list differs from the
    one last shown.

    The module-level `state` starts as an empty object, which no list
    equals. Comparing the serialised lists is modelled as comparing the
    values. */
module UI {
  import opened Common
  import DdevShell

  /** What `state` holds: the initial `{}`, or the last list shown. */
  datatype PollState = Unset | Listed(sites: seq<DdevShell.Site>)

  /** A card in the card container. */
  datatype Card = AddCard | SiteCard(site: DdevShell.Site)

  const NotRunningText: string := "DDEV Router Not Running - No Running DDEV Applications."

  /** The router-status label: empty exactly when there is a site and the
      first one reports the router `starting` or `healthy`. */
  function RouterStatusText(list: seq<DdevShell.Site>): (text: string)
    ensures text == "" <==> |list| > 0 && list[0].routerStatus in [Some("starting"), Some("healthy")]
    ensures text != "" ==> text == NotRunningText
  {
    if |list| != 0 && list[0].routerStatus in [Some("starting"), Some("healthy")] then "" else NotRunningText
  }

  /** The card container: the add card, then one card per site in list order. */
  function Cards(list: seq<DdevShell.Site>): (cards: seq<Card>)
    ensures |cards| == |list| + 1 && cards[0] == AddCard
    ensures forall i :: 0 <= i < |list| ==> cards[i + 1] == SiteCard(list[i])
  {
    [AddCard] + seq(|list|, i requires 0 <= i < |list| => SiteCard(list[i]))
  }

  /** One tick of `fetchState`: a list that resolved and differs from the
      state replaces it and is rendered; anything else leaves both alone. */
  function Tick(state: PollState, listed: Settlement<seq<DdevShell.Site>, DdevShell.Reason>): (next: (PollState, bool))
    ensures next.1 <==> listed.Resolved? && state != Listed(listed.value)
    ensures next.1 ==> next.0 == Listed(listed.value)
    ensures !next.1 ==> next.0 == state
  {
    match listed
    case Resolved(data) => if Listed(data) != state then (Listed(data), true) else (state, false)
    case _ => (state, false)
  }

  /** The very first list, even an empty one, is rendered. */
  lemma FirstTickRenders(data: seq<DdevShell.Site>)
    ensures Tick(Unset, Resolved(data)) == (Listed(data), true)
  {
  }

  /** Ticks in a row: the final state and the number of renders. */
  function Poll(state: PollState, ticks: seq<Settlement<seq<DdevShell.Site>, DdevShell.Reason>>): (r: (PollState, nat))
    ensures r.1 <= |ticks|
    ensures r.0 != state ==> r.1 > 0
    decreases |ticks|
  {
    if ticks == [] then (state, 0)
    else
      var (next, rendered) := Tick(state, ticks[0]);
      var (last, renders) := Poll(next, ticks[1..]);
      (last, renders + if rendered then 1 else 0)
  }

  /** Any number of ticks that list the same sites render at most once,
      and after at least one of them the state is that list. */
  lemma {:induction false} RepeatedListRendersOnce(state: PollState, data: seq<DdevShell.Site>, n: nat)
    ensures Poll(state, seq(n, _ => Resolved(data))).1 <= 1
    ensures Poll(state, seq(n, _ => Resolved(data))).1 == 1 ==> state != Listed(data)
    ensures n > 0 ==> Poll(state, seq(n, _ => Resolved(data))).0 == Listed(data)
    decreases n
  {
    if n > 0 {
      var ticks: seq<Settlement<seq<DdevShell.Site>, DdevShell.Reason>> := seq(n, _ => Resolved(data));
      assert ticks[1..] == seq(n - 1, _ => Resolved(data));
      var next := Tick(state, Resolved(data)).0;
      RepeatedListRendersOnce(next, data, n - 1);
      assert next == Listed(data);
    }
  }

  /** The dashboard: the poller's state and what is on screen. */
  class Dashboard {
    var state: PollState
    var cards: seq<Card>
    var statusLabel: string
    var renders: nat

    constructor ()
      ensures state == Unset && cards == [] && statusLabel == "" && renders == 0
    {
      state := Unset;
      cards := [];
      statusLabel := "";
      renders := 0;
    }

    /** `renderUI`: empties the container, adds the add card and then one
        card per site, and sets the label. */
    method RenderUI(list: seq<DdevShell.Site>)
      modifies this
      ensures cards == Cards(list) && statusLabel == RouterStatusText(list)
      ensures renders == old(renders) + 1 && state == old(state)
    {
      var routerStatusText := NotRunningText;
      cards := [AddCard];
      assert cards == Cards([]);
      if |list| != 0 {
        var i := 0;
        while i < |list|
          invariant 0 <= i <= |list|
          invariant cards == Cards(list[..i])
          invariant state == old(state) && renders == old(renders)
        {
          assert list[..i + 1] == list[..i] + [list[i]];
          cards := cards + [SiteCard(list[i])];
          assert cards == Cards(list[..i + 1]);
          i := i + 1;
        }
        assert list[..i] == list;
        if list[0].routerStatus in [Some("starting"), Some("healthy")] {
          routerStatusText := "";
        }
      }
      statusLabel := routerStatusText;
      renders := renders + 1;
    }

    /** `fetchState`: one tick, rendering when `Tick` says so. */
    method FetchState(listed: Settlement<seq<DdevShell.Site>, DdevShell.Reason>)
      modifies this
      ensures state == Tick(old(state), listed).0
      ensures renders == old(renders) + (if Tick(old(state), listed).1 then 1 else 0)
      ensures Tick(old(state), listed).1 ==> cards == Cards(listed.value) && statusLabel == RouterStatusText(listed.value)
      ensures !Tick(old(state), listed).1 ==> cards == old(cards) && statusLabel == old(statusLabel)
    {
      if listed.Resolved? {
        var data := listed.value;
        if Listed(data) != state {
          state := Listed(data);
          RenderUI(data);
        }
      }
    }
  }
}
