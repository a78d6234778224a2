/** The accordion of Client/src/components/home/FAQ.jsx: the open item is
    one id or none, clicking the open item closes it, clicking any other
    opens that one, and a panel is expanded exactly when its id is the open
    one. */
module FAQ {
  import opened Common

  /** The ids of the eight questions, in the order they are listed. */
  const FAQ_IDS: seq<string> :=
    ["collapse1", "collapse2", "collapse6", "collapse7", "collapse3", "collapse8", "collapse4", "collapse5"]

  /** The item open at first. */
  const INITIAL_ITEM: Option<string> := Some("collapse1")

  /** toggleItem: the open item closes, any other item opens. */
  function Toggle(active: Option<string>, id: string): (r: Option<string>)
    ensures active == Some(id) ==> r.None?
    ensures active != Some(id) ==> r == Some(id)
  {
    if active == Some(id) then None else Some(id)
  }

  /** Toggling the same id twice restores a state that was that id or none. */
  lemma ToggleTwice(active: Option<string>, id: string)
    requires active == Some(id) || active.None?
    ensures Toggle(Toggle(active, id), id) == active
  {
  }

  /** From another open item, toggling twice closes everything instead. */
  lemma ToggleTwiceFromOther(other: string, id: string)
    requires other != id
    ensures Toggle(Toggle(Some(other), id), id).None?
  {
  }

  lemma IdsDistinct()
    ensures Distinct(FAQ_IDS)
  {
  }

  /** The ids whose panel carries the 'in' class. */
  function OpenPanels(active: Option<string>): seq<string>
  {
    Filter(FAQ_IDS, (id: string) => active == Some(id))
  }

  /** At most one panel is expanded: the open id when it is listed, none when
      nothing is open. */
  lemma AtMostOneOpen(active: Option<string>)
    ensures |OpenPanels(active)| <= 1
    ensures active.Some? && active.value in FAQ_IDS ==> OpenPanels(active) == [active.value]
    ensures active.None? ==> OpenPanels(active) == []
  {
    IdsDistinct();
    if active.Some? {
      FilterSingleMatch(FAQ_IDS, (id: string) => active == Some(id), active.value);
    } else {
      FilterNoMatch(FAQ_IDS, (id: string) => active == Some(id));
    }
  }

  /** The page opens with the first question expanded. */
  lemma InitiallyFirstOpen()
    ensures OpenPanels(INITIAL_ITEM) == ["collapse1"]
  {
    AtMostOneOpen(INITIAL_ITEM);
  }

  /** Clicks on listed questions, starting from the initial state. */
  function Clicks(active: Option<string>, ids: seq<string>): Option<string>
    decreases |ids|
  {
    if ids == [] then active else Clicks(Toggle(active, ids[0]), ids[1..])
  }

  /** After any run of clicks on listed questions, the open item is listed or
      there is none, so at most one panel is expanded. */
  lemma {:induction false} ClicksKeepListed(active: Option<string>, ids: seq<string>)
    requires active.None? || active.value in FAQ_IDS
    requires forall i :: 0 <= i < |ids| ==> ids[i] in FAQ_IDS
    ensures var r := Clicks(active, ids); r.None? || r.value in FAQ_IDS
    decreases |ids|
  {
    if ids != [] {
      ClicksKeepListed(Toggle(active, ids[0]), ids[1..]);
    }
  }
}
