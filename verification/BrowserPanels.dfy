/** Browser panels: sessions in the browser service that the controller opened, journals
    before handing them out, and owns until their close is confirmed. */
module BrowserPanels {
  import opened Base

  const MAX_PANELS := 16
  const MAX_DELAY := 30

  type Id = string

  datatype Panel = Panel(client: string, project: string, closing: bool, retry: bool, delay: nat, orphan: bool)

  datatype Started = Unavailable | Absent | Begun(panel: Panel)

  /** A panel is marked as closing exactly while one close call for it is in flight. */
  ghost predicate Flagged(panels: map<Id, Panel>, inFlight: multiset<Id>) {
    && (forall id <- inFlight :: id in panels)
    && (forall id <- panels :: inFlight[id] == Indicator(panels[id].closing))
  }

  ghost predicate Owning(panels: map<Id, Panel>, handed: set<Id>, confirmed: set<Id>) {
    handed - confirmed <= panels.Keys && |panels| <= MAX_PANELS
  }

  /** What a crash must not lose. */
  ghost predicate Covered(journal: set<Id>, handed: set<Id>, confirmed: set<Id>) {
    handed - confirmed <= journal && |journal| <= MAX_PANELS
  }

  lemma SavingCovers(panels: map<Id, Panel>, handed: set<Id>, confirmed: set<Id>)
    requires Owning(panels, handed, confirmed)
    ensures Covered(panels.Keys, handed, confirmed)
  {
  }

  lemma SamePanels(panels: map<Id, Panel>, next: map<Id, Panel>, handed: set<Id>, confirmed: set<Id>)
    requires Owning(panels, handed, confirmed) && next.Keys == panels.Keys
    ensures Owning(next, handed, confirmed)
  {
    assert |next| == |next.Keys| && |panels| == |panels.Keys|;
  }

  lemma OneMorePanel(panels: map<Id, Panel>, handed: set<Id>, confirmed: set<Id>, id: Id, panel: Panel)
    requires Owning(panels, handed, confirmed) && |panels| < MAX_PANELS && id !in panels
    ensures Owning(panels[id := panel], handed, confirmed) && Owning(panels[id := panel], handed + {id}, confirmed)
    ensures Covered(panels[id := panel].Keys, handed, confirmed) && Covered(panels[id := panel].Keys, handed + {id}, confirmed)
    ensures panels[id := panel].Keys == panels.Keys + {id} && panels[id := panel] - {id} == panels
  {
    assert panels[id := panel].Keys == panels.Keys + {id};
    assert |panels[id := panel]| == |panels[id := panel].Keys| && |panels| == |panels.Keys|;
  }

  lemma SameFlag(panels: map<Id, Panel>, inFlight: multiset<Id>, id: Id, panel: Panel)
    requires Flagged(panels, inFlight) && panel.closing == (id in panels && panels[id].closing)
    ensures Flagged(panels[id := panel], inFlight)
  {
  }

  lemma Claiming(panels: map<Id, Panel>, inFlight: multiset<Id>, id: Id, panel: Panel)
    requires Flagged(panels, inFlight) && id in panels && !panels[id].closing && panel.closing
    ensures Flagged(panels[id := panel], inFlight + multiset{id}) && panels[id := panel].Keys == panels.Keys
  {
  }

  lemma Releasing(panels: map<Id, Panel>, inFlight: multiset<Id>, id: Id, panel: Panel)
    requires Flagged(panels, inFlight) && id in inFlight && !panel.closing
    ensures id in panels && inFlight[id] == 1
    ensures Flagged(panels[id := panel], inFlight - multiset{id}) && panels[id := panel].Keys == panels.Keys
    ensures Flagged(panels - {id}, inFlight - multiset{id})
  {
    assert id in panels;
  }

  lemma ReleasedAndKept(panels: map<Id, Panel>, inFlight: multiset<Id>, handed: set<Id>, confirmed: set<Id>, id: Id, panel: Panel)
    requires Flagged(panels, inFlight) && Owning(panels, handed, confirmed) && id in inFlight && !panel.closing
    ensures Flagged(panels[id := panel], inFlight - multiset{id}) && Owning(panels[id := panel], handed, confirmed)
    ensures (panels - {id})[id := panel] == panels[id := panel]
  {
    hide Flagged, Owning;
    Releasing(panels, inFlight, id, panel);
    SamePanels(panels, panels[id := panel], handed, confirmed);
  }

  lemma Forgetting(panels: map<Id, Panel>, handed: set<Id>, confirmed: set<Id>, id: Id)
    requires Owning(panels, handed, confirmed) && id in confirmed
    ensures Owning(panels - {id}, handed, confirmed) && (panels - {id}).Keys == panels.Keys - {id}
  {
    assert (panels - {id}).Keys == panels.Keys - {id};
    CardinalityIsMonotonic((panels - {id}).Keys, panels.Keys);
  }

  /** Of the panels outside `rest`, exactly the matching ones nobody was closing are claimed. */
  ghost predicate Claims(before: map<Id, Panel>, panels: map<Id, Panel>, claimed: seq<Id>, rest: set<Id>, matches: Panel -> bool) {
    && panels.Keys == before.Keys
    && (forall id <- before :: id in claimed <==> id !in rest && matches(before[id]) && !before[id].closing)
    && (forall id <- before :: panels[id] == if id in claimed then before[id].(closing := true) else before[id])
  }

  lemma NothingClaimed(panels: map<Id, Panel>, matches: Panel -> bool)
    ensures Claims(panels, panels, [], panels.Keys, matches)
  {
  }

  lemma ClaimingOne(before: map<Id, Panel>, panels: map<Id, Panel>, claimed: seq<Id>, rest: set<Id>,
          matches: Panel -> bool, id: Id)
    requires Claims(before, panels, claimed, rest, matches) && id in rest && id in before
    ensures panels[id] == before[id]
    ensures matches(panels[id]) && !panels[id].closing ==>
              Claims(before, panels[id := panels[id].(closing := true)], claimed + [id], rest - {id}, matches)
    ensures !(matches(panels[id]) && !panels[id].closing) ==> Claims(before, panels, claimed, rest - {id}, matches)
  {
    assert id !in claimed;
    assert forall other :: other in claimed + [id] <==> other in claimed || other == id;
  }

  lemma InFlightIsKnown(panels: map<Id, Panel>, inFlight: multiset<Id>, id: Id)
    requires Flagged(panels, inFlight) && id in inFlight
    ensures id in panels
  {
  }

  class Panels {
    var panels: map<Id, Panel>
    var draining: bool
    var journal: set<Id>
    // Close calls sent to the browser service and not answered yet.
    var inFlight: multiset<Id>
    // Panel identifiers given to a client, and those whose close was confirmed.
    ghost var handed: set<Id>
    ghost var confirmed: set<Id>

    ghost predicate Valid()
      reads this
    {
      Covered(journal, handed, confirmed) && Owning(panels, handed, confirmed) && Flagged(panels, inFlight)
    }

    constructor ()
      ensures Valid() && panels == map[] && !draining
    {
      panels, draining, journal, inFlight := map[], false, {}, multiset{};
      handed, confirmed := {}, {};
    }

    /** A panel has at most one close call in flight, whoever wants it closed. */
    lemma OneCloseAtATime(id: Id)
      requires Valid()
      ensures inFlight[id] <= 1
    {
      if id in panels {
        assert inFlight[id] == Indicator(panels[id].closing);
      }
    }

    /** Writes the identifiers of all panels to the journal. */
    method SaveOwnership(outcome: Outcome) returns (ok: bool)
      modifies this`journal
      ensures ok == outcome.Saved? && journal == Landed(old(journal), panels.Keys, outcome)
    {
      var ids, rest := {}, panels.Keys;
      while rest != {}
        invariant rest <= panels.Keys && ids == panels.Keys - rest
        decreases |rest|
      {
        var id :| id in rest;
        ids, rest := ids + {id}, rest - {id};
      }
      journal := Landed(journal, ids, outcome);
      ok := outcome.Saved?;
    }

    /** Opens a panel under a new identifier, which is journaled before the client sees it. */
    method Open(client: string, project: string, id: Id, outcome: Outcome) returns (result: Option<Id>)
      requires Valid() && id !in panels && id !in handed
      modifies this
      ensures Valid() && confirmed == old(confirmed)
      ensures result.Some? <==> project != "" && |project| <= 128 && '\0' !in project && !draining && |old(panels)| < MAX_PANELS && outcome.Saved?
      ensures result.Some? ==> result.value == id && handed == old(handed) + {id} && id in journal
                               && panels == old(panels)[id := Panel(client, project, false, false, 0, false)]
      ensures result.None? ==> handed == old(handed) && panels == old(panels)
    {
      hide Flagged, Owning, Covered;
      SameFlag(panels, inFlight, id, Panel(client, project, false, false, 0, false));
      if project == "" || |project| > 128 || '\0' in project || draining || |panels| >= MAX_PANELS {
        return None;
      }
      var panel := Panel(client, project, false, false, 0, false);
      OneMorePanel(panels, handed, confirmed, id, panel);
      panels := panels[id := panel];
      var saved := SaveOwnership(outcome);
      if !saved {
        panels := panels - {id};
        return None;
      }
      handed := handed + {id};
      return Some(id);
    }

    /** Commands go to a panel only while its own client holds it open. */
    method Owned(client: string, id: Id) returns (owned: bool)
      requires Valid()
      ensures owned <==> !draining && id in panels && panels[id].client == client && inFlight[id] == 0 && !panels[id].orphan && !panels[id].retry
    {
      owned := id in panels && !draining && !panels[id].orphan && panels[id].client == client && !panels[id].closing && !panels[id].retry;
    }

    method BeginClose(client: string, id: Id) returns (started: Started)
      requires Valid()
      modifies this`panels, this`inFlight
      ensures Valid()
      ensures started.Begun? <==> id in old(panels) && old(panels)[id].client == client && !old(panels)[id].orphan && old(inFlight)[id] == 0
      ensures started.Begun? ==> inFlight == old(inFlight) + multiset{id} && panels == old(panels)[id := started.panel]
      ensures started.Begun? ==> started.panel == old(panels)[id].(closing := true, retry := false)
      ensures !started.Begun? ==> panels == old(panels) && inFlight == old(inFlight)
      ensures started.Absent? <==> id !in old(panels)
    {
      if id !in panels {
        return Absent;
      }
      var panel := panels[id];
      if panel.orphan || panel.client != client || panel.closing {
        return Unavailable;
      }
      panel := panel.(retry := false, closing := true);
      Claiming(panels, inFlight, id, panel);
      hide Flagged;
      panels := panels[id := panel];
      inFlight := inFlight + multiset{id};
      return Begun(panel);
    }

    /** Claims every matching panel that nobody is closing yet. */
    method ClaimMatching(matches: Panel -> bool) returns (claimed: seq<Id>)
      requires Valid()
      modifies this`panels, this`inFlight
      ensures Valid() && panels.Keys == old(panels).Keys
      ensures inFlight == old(inFlight) + multiset(claimed)
      ensures Claims(old(panels), panels, claimed, {}, matches)
    {
      hide Flagged, Owning, Covered, Claims;
      claimed := [];
      var rest := panels.Keys;
      NothingClaimed(panels, matches);
      while rest != {}
        invariant Valid() && panels.Keys == old(panels).Keys && rest <= panels.Keys
        invariant inFlight == old(inFlight) + multiset(claimed)
        invariant Claims(old(panels), panels, claimed, rest, matches)
        decreases |rest|
      {
        var id :| id in rest;
        ClaimingOne(old(panels), panels, claimed, rest, matches, id);
        rest := rest - {id};
        if matches(panels[id]) && !panels[id].closing {
          var next := panels[id := panels[id].(closing := true)];
          Claiming(panels, inFlight, id, panels[id].(closing := true));
          SamePanels(panels, next, handed, confirmed);
          panels := next;
          inFlight := inFlight + multiset{id};
          claimed := claimed + [id];
        }
      }
    }

    /** The browser service answered a close call. */
    method Answered(id: Id, closed: bool)
      requires Valid() && id in inFlight
      modifies this`confirmed
      ensures Valid() && confirmed == if closed then old(confirmed) + {id} else old(confirmed)
    {
      if closed {
        confirmed := confirmed + {id};
      }
    }

    /** The end of a close. The panel is forgotten only when its close was confirmed and
        the journal without it is saved; otherwise it stays and is retried. */
    method FinishClose(id: Id, closed: bool, outcome: Outcome) returns (saved: bool)
      requires Valid() && id in inFlight && (closed ==> id in confirmed)
      modifies this`panels, this`inFlight, this`journal
      ensures Valid()
      ensures inFlight == old(inFlight) - multiset{id}
      ensures id !in panels <==> closed && outcome.Saved?
      ensures saved == !(closed && !outcome.Saved?)
      ensures panels == if id in panels then old(panels)[id := panels[id]] else old(panels) - {id}
      ensures id in old(panels) && journal == if closed then Landed(old(journal), old(panels).Keys - {id}, outcome) else old(journal)
      ensures id in panels ==>
                var before := old(panels)[id];
                var doubled := before.delay * 2;
                panels[id] ==
                  if draining then before.(closing := false)
                  else before.(closing := false, retry := true,
                               delay := if doubled < 1 then 1 else if doubled > MAX_DELAY then MAX_DELAY else doubled)
    {
      hide Flagged, Owning, Covered;
      InFlightIsKnown(panels, inFlight, id);
      var panel := panels[id];
      saved := true;
      ghost var before := panels;
      Releasing(before, inFlight, id, panel.(closing := false));
      inFlight := inFlight - multiset{id};
      if closed {
        Forgetting(before, handed, confirmed, id);
        SavingCovers(before - {id}, handed, confirmed);
        panels := panels - {id};
        saved := SaveOwnership(outcome);
        if saved {
          return;
        }
      }
      panel := panel.(closing := false);
      if !draining {
        panel := panel.(retry := true, delay := Min(MAX_DELAY, if panel.delay * 2 > 1 then panel.delay * 2 else 1));
      }
      ReleasedAndKept(before, old(inFlight), handed, confirmed, id, panel);
      panels := panels[id := panel];
    }

    /** A retry timer fires; an old timer may fire at any time. */
    method RetryClose(id: Id) returns (begun: bool)
      requires Valid()
      modifies this`panels, this`inFlight
      ensures Valid()
      ensures begun <==> !draining && id in old(panels) && old(inFlight)[id] == 0
      ensures begun ==>
                && inFlight == old(inFlight) + multiset{id}
                && panels == old(panels)[id := old(panels)[id].(closing := true, retry := false)]
      ensures !begun ==> panels == old(panels) && inFlight == old(inFlight)
    {
      if id !in panels || draining || panels[id].closing {
        return false;
      }
      Claiming(panels, inFlight, id, panels[id].(closing := true, retry := false));
      hide Flagged;
      panels := panels[id := panels[id].(closing := true, retry := false)];
      inFlight := inFlight + multiset{id};
      return true;
    }

    /** Shutdown: no new panels and no more retries. */
    method StartDraining()
      requires Valid()
      modifies this`panels, this`draining
      ensures Valid() && draining && panels.Keys == old(panels).Keys
      ensures forall id <- panels :: panels[id] == old(panels)[id].(retry := false)
    {
      hide Flagged;
      draining := true;
      var rest := panels.Keys;
      while rest != {}
        invariant Valid() && draining && panels.Keys == old(panels).Keys && rest <= panels.Keys
        invariant forall id <- panels :: panels[id] == if id in rest then old(panels)[id] else old(panels)[id].(retry := false)
        decreases |rest|
      {
        var id :| id in rest;
        rest := rest - {id};
        SameFlag(panels, inFlight, id, panels[id].(retry := false));
        assert panels[id := panels[id].(retry := false)].Keys == panels.Keys;
        panels := panels[id := panels[id].(retry := false)];
      }
    }

    /** A crash loses the memory and the calls; a new process owns what the journal lists,
        so every panel handed out and not confirmed closed is owned again. */
    method Restart(readable: bool) returns (ok: bool)
      requires Covered(journal, handed, confirmed)
      modifies this`panels, this`draining, this`inFlight
      ensures Covered(journal, handed, confirmed) && ok == readable
      ensures ok ==> Valid() && !draining && panels.Keys == journal && handed - confirmed <= panels.Keys
      ensures ok ==> forall id <- panels :: panels[id] == Panel("", "", false, false, 0, true)
    {
      panels, draining, inFlight := map[], false, multiset{};
      if !readable {
        return false;
      }
      var rest := journal;
      while rest != {}
        invariant rest <= journal && panels.Keys == journal - rest && !draining && inFlight == multiset{}
        invariant forall id <- panels :: panels[id] == Panel("", "", false, false, 0, true)
        decreases |rest|
      {
        var id :| id in rest;
        rest := rest - {id};
        panels := panels[id := Panel("", "", false, false, 0, true)];
      }
      assert panels.Keys == journal && |panels| == |panels.Keys|;
      return true;
    }
  }
}
