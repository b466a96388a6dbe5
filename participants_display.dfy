/** The participant summary shown on a feed card (components/shared/participants-display.tsx): how
    many spots are left, one avatar per participant, up to three empty placeholders, and the name of
    the first participant with a count of the others. An open invite shows none of it. */
module ParticipantsDisplay {
  import opened Wrappers
  import opened Js
  import opened Types

  /** The component's props; `showNames` defaults to true and `openInvite` to false when undefined.
      `totalSpots` is received and not used. */
  datatype Props = Props(
    totalSpots: int,
    participants: seq<Participant>,
    remainingSpots: int,
    showNames: Option<bool>,
    openInvite: Option<bool>)

  /** What an avatar shows: the participant's picture, or the first character of their name. */
  datatype Face = Photo(src: string, alt: string) | Initial(letter: string)

  /** One avatar, keyed by the participant's id and titled with their name. */
  datatype Avatar = Avatar(key: int, tooltip: string, face: Face)

  /** "{count} {noun} left". */
  datatype SpotsLabel = SpotsLabel(count: int, noun: string)

  /** " and {count} {noun}" after the first name. */
  datatype Others = Others(count: int, noun: string)

  /** The first participant's name, followed by the others clause when there are others. */
  datatype NameSummary = NameSummary(first: string, others: Option<Others>)

  datatype View = View(spots: SpotsLabel, avatars: seq<Avatar>, placeholders: nat, summary: Option<NameSummary>)

  /** `spot{remainingSpots !== 1 ? 's' : ''}`: singular exactly for one spot. */
  function SpotsNoun(remaining: int): (r: string)
    ensures r == "spot" <==> remaining == 1
    ensures r == "spot" || r == "spots"
  {
    "spot" + (if remaining != 1 then "s" else "")
  }

  /** The number of empty placeholders: `Math.min(remainingSpots, 3)`, which `Array.from` takes as a
      length and so clamps at 0 when negative. Never more than three, none when no spot is left, and
      one per remaining spot up to three. */
  function PlaceholderCount(remaining: int): (n: nat)
    ensures n <= 3
    ensures remaining <= 0 ==> n == 0
    ensures 0 <= remaining <= 3 ==> n == remaining
    ensures remaining >= 3 ==> n == 3
  {
    var length := if remaining < 3 then remaining else 3;
    if length < 0 then 0 else length
  }

  /** One participant's avatar: a photo when the avatar URL is truthy, otherwise the first character
      of the name (the empty string for an empty name). */
  function AvatarOf(p: Participant): (a: Avatar)
    ensures a.key == p.id && a.tooltip == p.name
    ensures a.face.Photo? <==> p.avatar.Some? && p.avatar.value != ""
    ensures a.face.Photo? ==> a.face == Photo(p.avatar.value, p.name)
    ensures a.face.Initial? && p.name == "" ==> a.face.letter == ""
    ensures a.face.Initial? && p.name != "" ==> a.face.letter == [p.name[0]]
  {
    var face := if p.avatar.Some? && p.avatar.value != "" then Photo(p.avatar.value, p.name)
                else Initial(FirstChar(p.name));
    Avatar(p.id, p.name, face)
  }

  /** The name summary: shown only when names are shown and someone participates; the others clause
      only with two or more participants, counting all but the first, plural from three on. */
  function Summary(participants: seq<Participant>, showNames: bool): (r: Option<NameSummary>)
    ensures r.Some? <==> showNames && |participants| > 0
    ensures r.Some? ==> r.value.first == participants[0].name
    ensures r.Some? ==> (r.value.others.Some? <==> |participants| > 1)
    ensures r.Some? && r.value.others.Some? ==>
              r.value.others.value.count + 1 == |participants|
              && (r.value.others.value.noun == "others" <==> |participants| > 2)
              && (r.value.others.value.noun == "other" <==> |participants| == 2)
  {
    if showNames && |participants| > 0 then
      var count := |participants|;
      var others := if count > 1 then Some(Others(count - 1, "other" + (if count > 2 then "s" else "")))
                    else None;
      Some(NameSummary(participants[0].name, others))
    else None
  }

  /** The rendered summary, or `None` (React's `null`) for an open invite. */
  function Render(props: Props): (r: Option<View>)
    ensures r.None? <==> props.openInvite == Some(true)
    ensures r.Some? ==> r.value.spots == SpotsLabel(props.remainingSpots, SpotsNoun(props.remainingSpots))
    ensures r.Some? ==> |r.value.avatars| == |props.participants|
    ensures r.Some? ==> forall i :: 0 <= i < |props.participants| ==>
                          r.value.avatars[i] == AvatarOf(props.participants[i])
    ensures r.Some? ==> r.value.placeholders == PlaceholderCount(props.remainingSpots)
    ensures r.Some? ==> r.value.summary == Summary(props.participants, props.showNames.GetOr(true))
  {
    if props.openInvite.GetOr(false) then None
    else
      var ps := props.participants;
      Some(View(
        SpotsLabel(props.remainingSpots, SpotsNoun(props.remainingSpots)),
        seq(|ps|, i requires 0 <= i < |ps| => AvatarOf(ps[i])),
        PlaceholderCount(props.remainingSpots),
        Summary(ps, props.showNames.GetOr(true))))
  }

  /** `totalSpots` is ignored: two props that differ only in it render the same. */
  lemma TotalSpotsIgnored(props: Props, totalSpots: int)
    ensures Render(props) == Render(props.(totalSpots := totalSpots))
  {
  }

  /** With one spot left the label reads "1 spot left" and exactly one placeholder is drawn; with
      none or fewer left, "spots" and no placeholder. */
  lemma SpotsAndPlaceholdersAgree(props: Props)
    requires props.openInvite != Some(true)
    ensures var v := Render(props).value;
            (props.remainingSpots == 1 ==> v.spots == SpotsLabel(1, "spot") && v.placeholders == 1)
            && (props.remainingSpots <= 0 ==> v.spots.noun == "spots" && v.placeholders == 0)
  {
  }

  /** The number of tiles in the avatar row: one per participant plus the placeholders. When at most
      three spots remain, each remaining spot has its placeholder. */
  lemma TileCount(props: Props)
    requires props.openInvite != Some(true)
    ensures var v := Render(props).value;
            |v.avatars| + v.placeholders == |props.participants| + PlaceholderCount(props.remainingSpots)
            && (0 <= props.remainingSpots <= 3 ==>
                  |v.avatars| + v.placeholders == |props.participants| + props.remainingSpots)
  {
  }

  /** The defaults: with neither flag given, names are shown and the invite is not open. */
  lemma DefaultsShowNames(participants: seq<Participant>, remaining: int, total: int)
    requires |participants| > 0
    ensures var v := Render(Props(total, participants, remaining, None, None));
            v.Some? && v.value.summary.Some? && v.value.summary.value.first == participants[0].name
  {
  }
}
