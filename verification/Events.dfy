/** Presence events (pkg/events/schema.go) and the bus they are published on. */
module Events {
  import opened Base
  import opened Store

  /** The four event types, and any other text a subscriber may find in the type field. */
  datatype Kind = UserOnline | UserOffline | UserTabs | UserPresence | OtherKind(name: string)

  /** The fields of a presence event that a subscriber's view depends on. */
  datatype Event = Event(kind: Kind, user: UserId, version: nat, tabs: nat, state: Option<Status>)

  /** The store together with every event published so far, in order. */
  datatype World = World(st: Store, log: seq<Event>)

  /** The publisher half of pkg/events/pubsub.go. */
  class Bus {
    var log: seq<Event>

    constructor ()
      ensures log == []
    {
      log := [];
    }

    method Publish(e: Event)
      modifies this
      ensures log == old(log) + [e]
    {
      log := log + [e];
    }
  }
}
