/** The record shapes of the feed (lib/types.ts): participants, posters, events and feed items.
    They carry no behaviour of their own. */
module Types {
  import opened Wrappers

  datatype Participant = Participant(id: int, name: string, avatar: Option<string>)

  /** A poster's connection degree to the viewer: "1st", "2nd" or "3rd". */
  datatype Connection = First | Second | Third

  datatype Poster = Poster(name: string, age: Option<int>, connection: Connection)

  datatype Event = Event(
    title: string,
    description: string,
    time: Option<string>,
    location: string,
    currentInterested: int,
    openInvite: bool,
    totalSpots: int,
    participants: seq<Participant>,
    startTime: Option<int>,
    duration: Option<int>,
    originalPoster: Option<Poster>)

  /** The kind of a feed item: "scheduled", "realtime" or "repost". */
  datatype ItemType = Scheduled | Realtime | Repost

  datatype FeedItem = FeedItem(
    id: int,
    kind: ItemType,
    poster: Poster,
    event: Event,
    repostMessage: Option<string>)
}
