/** One card of the feed (components/shared/feed-card.tsx): what it shows for a feed item, which
    callbacks its buttons fire, and the open/closed state of its menu. */
module FeedCard {
  import opened Wrappers
  import opened Js
  import opened Types
  import ParticipantsDisplay

  /** The colour of a connection badge: emerald for "1st", sky for "2nd", zinc for anything else. */
  datatype Tier = Emerald | Sky | Zinc

  /** A callback a card hands back to its owner, with the item's id. */
  datatype Callback = InterestToggled(id: int) | RepostToggled(id: int) | DeleteRequested(id: int)

  /** "Reposted by {reposter}", with a fixed "1st" badge. */
  datatype RepostHeader = RepostHeader(reposter: string)

  datatype ProgressBar = ProgressBar(startTime: Option<int>, duration: Option<int>)

  /** The shown poster's initial, name, age and connection badge; each is undefined when a repost has
      no original poster. */
  datatype PosterLine = PosterLine(
    initial: Option<char>,
    name: Option<string>,
    age: Option<int>,
    connection: Option<Connection>,
    tier: Tier)

  datatype Details = Details(title: string, description: string, time: Option<string>, location: string)

  datatype RepostButton = RepostButton(highlighted: bool, onClick: Callback)

  datatype JoinButton = JoinButton(text: string, onClick: Callback)

  /** The actions row of an original post. */
  datatype Actions = Actions(repost: Option<RepostButton>, interestedCount: Option<int>, join: JoinButton)

  datatype Card = Card(
    repostHeader: Option<RepostHeader>,
    progressBar: Option<ProgressBar>,
    poster: PosterLine,
    details: Details,
    participants: Option<ParticipantsDisplay.View>,
    actions: Option<Actions>)

  /** The poster whose identity the card shows: the event's original poster for a repost (possibly
      undefined), the item's poster otherwise. */
  function ShownPoster(item: FeedItem): (r: Option<Poster>)
    ensures item.kind == Repost ==> r == item.event.originalPoster
    ensures item.kind != Repost ==> r == Some(item.poster)
  {
    if item.kind == Repost then item.event.originalPoster else Some(item.poster)
  }

  /** The badge colour of a (possibly undefined) connection. */
  function TierOf(c: Option<Connection>): (t: Tier)
    ensures t == Emerald <==> c == Some(First)
    ensures t == Sky <==> c == Some(Second)
    ensures t == Zinc <==> c == None || c == Some(Third)
  {
    match c
    case Some(First) => Emerald
    case Some(Second) => Sky
    case _ => Zinc
  }

  function PosterLineOf(shown: Option<Poster>): (r: PosterLine)
    ensures shown.None? ==> r == PosterLine(None, None, None, None, Zinc)
    ensures shown.Some? ==> r.name == Some(shown.value.name) && r.age == shown.value.age
                            && r.connection == Some(shown.value.connection)
    ensures r.initial.Some? <==> shown.Some? && shown.value.name != ""
    ensures r.initial.Some? ==> r.initial.value == shown.value.name[0]
    ensures r.tier == TierOf(r.connection)
  {
    match shown
    case None => PosterLine(None, None, None, None, TierOf(None))
    case Some(p) => PosterLine(FirstIndex(p.name), Some(p.name), p.age, Some(p.connection), TierOf(Some(p.connection)))
  }

  /** The props the card passes to the participant summary: the remaining spots are the total less the
      participants (negative when overbooked), and names are shown only when the item's own poster,
      even a reposter, is a first-degree connection. */
  function ParticipantsProps(item: FeedItem): (r: ParticipantsDisplay.Props)
    ensures r.remainingSpots + |item.event.participants| == item.event.totalSpots
    ensures r.showNames == Some(item.poster.connection == First)
    ensures r.openInvite == Some(item.event.openInvite)
    ensures r.participants == item.event.participants
  {
    ParticipantsDisplay.Props(
      item.event.totalSpots,
      item.event.participants,
      item.event.totalSpots - |item.event.participants|,
      Some(item.poster.connection == First),
      Some(item.event.openInvite))
  }

  /** The actions row: a repost button only for open invites, the interested count only when positive,
      and a button labelled "Interested" once the viewer is interested and "Join" before. */
  function ActionsOf(item: FeedItem, isInterested: bool, isReposted: bool): (r: Actions)
    ensures r.repost.Some? <==> item.event.openInvite
    ensures r.repost.Some? ==> r.repost.value == RepostButton(isReposted, RepostToggled(item.id))
    ensures r.interestedCount.Some? <==> item.event.currentInterested > 0
    ensures r.interestedCount.Some? ==> r.interestedCount.value == item.event.currentInterested
    ensures r.join.text == "Interested" <==> isInterested
    ensures r.join.text == "Join" <==> !isInterested
    ensures r.join.onClick == InterestToggled(item.id)
  {
    Actions(
      if item.event.openInvite then Some(RepostButton(isReposted, RepostToggled(item.id))) else None,
      if item.event.currentInterested > 0 then Some(item.event.currentInterested) else None,
      JoinButton(if isInterested then "Interested" else "Join", InterestToggled(item.id)))
  }

  /** The whole card. */
  function Render(item: FeedItem, isInterested: bool, isReposted: bool): (c: Card)
    ensures c.repostHeader.Some? <==> item.kind == Repost
    ensures c.repostHeader.Some? ==> c.repostHeader.value.reposter == item.poster.name
    ensures c.progressBar.Some? <==> item.kind == Realtime
    ensures c.actions.Some? <==> item.kind != Repost
    ensures c.actions.Some? ==> c.actions.value == ActionsOf(item, isInterested, isReposted)
    ensures c.poster == PosterLineOf(ShownPoster(item))
    ensures c.participants == ParticipantsDisplay.Render(ParticipantsProps(item))
    ensures c.details == Details(item.event.title, item.event.description, item.event.time, item.event.location)
  {
    Card(
      if item.kind == Repost then Some(RepostHeader(item.poster.name)) else None,
      if item.kind == Realtime then Some(ProgressBar(item.event.startTime, item.event.duration)) else None,
      PosterLineOf(ShownPoster(item)),
      Details(item.event.title, item.event.description, item.event.time, item.event.location),
      ParticipantsDisplay.Render(ParticipantsProps(item)),
      if item.kind != Repost then Some(ActionsOf(item, isInterested, isReposted)) else None)
  }

  /** Every card shows exactly one of the repost header and the actions row, and the progress bar
      never appears on a repost. */
  lemma HeaderXorActions(item: FeedItem, isInterested: bool, isReposted: bool)
    ensures var c := Render(item, isInterested, isReposted);
            (c.repostHeader.Some? <==> c.actions.None?)
            && !(c.repostHeader.Some? && c.progressBar.Some?)
  {
  }

  /** A repost shows its original poster's identity, and its badge colour follows that poster's
      connection, not the reposter's. */
  lemma RepostShowsOriginalPoster(item: FeedItem, original: Poster)
    requires item.kind == Repost && item.event.originalPoster == Some(original)
    ensures var line := Render(item, false, false).poster;
            line.name == Some(original.name) && line.age == original.age
            && line.connection == Some(original.connection) && line.tier == TierOf(Some(original.connection))
  {
  }

  /** Names in the participant summary follow the item's own poster, even on a repost whose original
      poster is a first-degree connection: a repost by a second- or third-degree connection hides
      them. */
  lemma ShowNamesFollowsItemPoster(item: FeedItem)
    requires item.kind == Repost && !item.event.openInvite
    requires item.poster.connection != First
    ensures Render(item, false, false).participants.Some?
    ensures Render(item, false, false).participants.value.summary.None?
  {
  }

  /** An overbooked event (more participants than spots) passes a negative count of remaining spots and
      so draws no placeholder; an event with spots to spare draws up to three. */
  lemma OverbookedDrawsNoPlaceholder(item: FeedItem)
    requires !item.event.openInvite
    ensures var v := Render(item, false, false).participants.value;
            (|item.event.participants| >= item.event.totalSpots ==> v.placeholders == 0)
            && (|item.event.participants| < item.event.totalSpots ==> 1 <= v.placeholders <= 3)
  {
  }

  /** An open invite hides the participant summary and, on an original post, offers the repost button. */
  lemma OpenInviteOffersRepost(item: FeedItem, isInterested: bool, isReposted: bool)
    requires item.event.openInvite
    ensures Render(item, isInterested, isReposted).participants.None?
    ensures item.kind != Repost ==>
              Render(item, isInterested, isReposted).actions.value.repost
              == Some(RepostButton(isReposted, RepostToggled(item.id)))
  {
  }

  // ---------------------------------------------------------------------------
  // The menu
  // ---------------------------------------------------------------------------

  /** What can happen to the menu: a click on the menu button, a click on "Delete Plan", or a mouse
      press that lands inside or outside the menu's container. */
  datatype MenuEvent = MenuButtonClicked | DeleteClicked | MouseDown(insideMenu: bool)

  /** Whether the menu is open after one event. */
  function MenuStep(open: bool, e: MenuEvent): (r: bool)
    ensures Closes(e) ==> !r
    ensures e == MenuButtonClicked ==> r != open
    ensures e == MouseDown(true) ==> r == open
  {
    match e
    case MenuButtonClicked => !open
    case DeleteClicked => false
    case MouseDown(inside) => if inside then open else false
  }

  /** Whether the menu is open after a sequence of events. */
  function MenuAfter(open: bool, events: seq<MenuEvent>): (r: bool)
    ensures events != [] && Closes(events[|events| - 1]) ==> !r
    ensures (forall i :: 0 <= i < |events| ==> events[i] == MouseDown(true)) ==> r == open
  {
    if events == [] then open else MenuStep(MenuAfter(open, events[..|events| - 1]), events[|events| - 1])
  }

  /** An event that closes the menu whatever its state. */
  predicate Closes(e: MenuEvent) {
    e == DeleteClicked || e == MouseDown(false)
  }

  /** Whether some event of the sequence closes the menu. */
  predicate ClosedSometime(events: seq<MenuEvent>) {
    exists i :: 0 <= i < |events| && Closes(events[i])
  }

  /** The number of menu-button clicks after the last closing event (after the start when none). */
  function TogglesSinceClose(events: seq<MenuEvent>): nat {
    if events == [] then 0
    else
      var last := events[|events| - 1];
      if Closes(last) then 0
      else TogglesSinceClose(events[..|events| - 1]) + (if last == MenuButtonClicked then 1 else 0)
  }

  /** The menu is open exactly when the button was clicked an odd number of times since it was last
      closed (by Delete or a press outside); with no such close, the count starts from the initial
      state. Presses inside the menu change nothing. */
  lemma {:induction false} MenuOpenIffOddToggles(open: bool, events: seq<MenuEvent>)
    ensures ClosedSometime(events) ==> MenuAfter(open, events) == (TogglesSinceClose(events) % 2 == 1)
    ensures !ClosedSometime(events) ==> MenuAfter(open, events) == (open != (TogglesSinceClose(events) % 2 == 1))
  {
    if events != [] {
      var prefix, last := events[..|events| - 1], events[|events| - 1];
      MenuOpenIffOddToggles(open, prefix);
      if !Closes(last) {
        assert ClosedSometime(events) <==> ClosedSometime(prefix) by {
          if ClosedSometime(events) {
            var i :| 0 <= i < |events| && Closes(events[i]);
            assert i < |prefix| && prefix[i] == events[i];
          }
          if ClosedSometime(prefix) {
            var i :| 0 <= i < |prefix| && Closes(prefix[i]);
            assert events[i] == prefix[i];
          }
        }
      } else {
        assert Closes(events[|events| - 1]);
      }
    }
  }

  /** The card's menu state, `showMenu`, closed when the card mounts. */
  class CardMenu {
    var showMenu: bool

    constructor ()
      ensures !showMenu
    {
      showMenu := false;
    }

    /** The menu button's click: `setShowMenu(!showMenu)`. */
    method MenuButtonClick()
      modifies this
      ensures showMenu == !old(showMenu)
      ensures showMenu == MenuStep(old(showMenu), MenuButtonClicked)
    {
      showMenu := !showMenu;
    }

    /** "Delete Plan": hands `onDelete` the item's id, then closes the menu. */
    method DeleteClick(item: FeedItem) returns (callback: Callback)
      modifies this
      ensures callback == DeleteRequested(item.id)
      ensures !showMenu
      ensures showMenu == MenuStep(old(showMenu), DeleteClicked)
    {
      callback := DeleteRequested(item.id);
      showMenu := false;
    }

    /** The document's mousedown listener: a press outside the menu's container closes the menu; a
        press inside leaves it as it is. */
    method MouseDownAnywhere(insideMenu: bool)
      modifies this
      ensures showMenu == (old(showMenu) && insideMenu)
      ensures showMenu == MenuStep(old(showMenu), MouseDown(insideMenu))
    {
      if !insideMenu {
        showMenu := false;
      }
    }
  }
}
