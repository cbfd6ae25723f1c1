/**
 * The playbook page (src/pages/Playbooks/Playbooks.tsx): the summary of all
 * playbooks, duplicating and deleting a playbook, and the expand and history
 * toggles of the cards.
 */
module Playbooks {
  import opened Wrappers
  import opened Types
  import opened Seqs
  import MockData

  function PlaybookId(p: Playbook): string { p.id }

  function DonationsOf(p: Playbook): int { p.metrics.totalDonations }

  /** `totalMetrics.totalDonations`: what all playbooks have raised. */
  function TotalDonations(playbooks: seq<Playbook>): int {
    Sum(playbooks, DonationsOf)
  }

  /**
   * `duplicatePlaybook`'s new playbook: the original under a new id, its
   * name marked " (Copy)", back at version 1 with no history, dated today.
   */
  function Duplicate(p: Playbook, newId: string, today: string): (copy: Playbook)
    ensures copy.id == newId && copy.name == p.name + " (Copy)"
    ensures copy.version == 1 && copy.versionHistory == [] && copy.lastModified == today
    ensures copy.steps == p.steps && copy.description == p.description && copy.metrics == p.metrics
    ensures copy.(id := p.id, name := p.name, version := p.version, lastModified := p.lastModified,
                  versionHistory := p.versionHistory) == p
  {
    p.(id := newId, name := p.name + " (Copy)", version := 1, lastModified := today, versionHistory := [])
  }

  /** A copy carries the original's metrics, so duplicating adds the original's donations to the total again. */
  lemma DuplicateCountsTwice(playbooks: seq<Playbook>, p: Playbook, newId: string, today: string)
    ensures TotalDonations(playbooks + [Duplicate(p, newId, today)]) == TotalDonations(playbooks) + p.metrics.totalDonations
  {
    SumAppend(playbooks, [Duplicate(p, newId, today)], DonationsOf);
  }

  /** Deleting by id lowers the total by exactly the donations of the playbooks removed. */
  lemma TotalAfterDelete(playbooks: seq<Playbook>, id: string)
    ensures TotalDonations(RemoveById(playbooks, PlaybookId, id))
            + TotalDonations(Filter(playbooks, Not(IdIsNot(PlaybookId, id)))) == TotalDonations(playbooks)
  {
    SumSplit(playbooks, IdIsNot(PlaybookId, id), DonationsOf);
  }

  /** Clicking a card's toggle: the open card closes, any other card opens in its place. */
  function Toggle(open: Option<string>, id: string): (next: Option<string>)
    ensures next == Some(id) <==> open != Some(id)
    ensures next.Some? ==> next.value == id
  {
    if open == Some(id) then None else Some(id)
  }

  /** Clicking the same toggle twice restores what was open, unless another card was open before. */
  lemma ToggleTwice(open: Option<string>, id: string)
    ensures Toggle(Toggle(open, id), id) == (if open == Some(id) then Some(id) else None)
  {
  }

  class PlaybooksPage {
    var playbooks: seq<Playbook>
    var expandedPlaybook: Option<string>
    var showVersionHistory: Option<string>
    var isModalOpen: bool

    constructor ()
      ensures playbooks == MockData.Playbooks && expandedPlaybook == None && showVersionHistory == None
      ensures !isModalOpen
    {
      playbooks := MockData.Playbooks;
      expandedPlaybook := None;
      showVersionHistory := None;
      isModalOpen := false;
    }

    /** `handleDelete`: only a confirmed delete removes the playbooks with that id. */
    method Delete(id: string, confirmed: bool)
      modifies this
      ensures confirmed ==> playbooks == RemoveById(old(playbooks), PlaybookId, id)
      ensures !confirmed ==> playbooks == old(playbooks)
      ensures expandedPlaybook == old(expandedPlaybook) && showVersionHistory == old(showVersionHistory)
      ensures isModalOpen == old(isModalOpen)
    {
      if confirmed {
        playbooks := RemoveById(playbooks, PlaybookId, id);
      }
    }

    /** `duplicatePlaybook`: the copy is appended and every existing playbook stays as it was. */
    method DuplicatePlaybook(p: Playbook, newId: string, today: string)
      modifies this
      ensures playbooks == old(playbooks) + [Duplicate(p, newId, today)]
      ensures expandedPlaybook == old(expandedPlaybook) && showVersionHistory == old(showVersionHistory)
      ensures isModalOpen == old(isModalOpen)
    {
      playbooks := playbooks + [Duplicate(p, newId, today)];
    }

    /** Clicking a card's header expands it, or collapses it when it is the expanded one. */
    method ToggleExpanded(id: string)
      modifies this
      ensures expandedPlaybook == Toggle(old(expandedPlaybook), id)
      ensures playbooks == old(playbooks) && showVersionHistory == old(showVersionHistory)
      ensures isModalOpen == old(isModalOpen)
    {
      expandedPlaybook := Toggle(expandedPlaybook, id);
    }

    /** The History button shows a card's version history, or hides it when it is the one shown. */
    method ToggleHistory(id: string)
      modifies this
      ensures showVersionHistory == Toggle(old(showVersionHistory), id)
      ensures playbooks == old(playbooks) && expandedPlaybook == old(expandedPlaybook)
      ensures isModalOpen == old(isModalOpen)
    {
      showVersionHistory := Toggle(showVersionHistory, id);
    }

    /** The New Playbook button only raises the modal flag. */
    method OpenNew()
      modifies this
      ensures isModalOpen
      ensures playbooks == old(playbooks) && expandedPlaybook == old(expandedPlaybook)
      ensures showVersionHistory == old(showVersionHistory)
    {
      isModalOpen := true;
    }
  }
}
