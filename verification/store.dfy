/**
 * The database both providers write to: the `users` and `events` collections as
 * maps from id to record, with the post-save hook that the event schema of
 * backend/models/event.schema.js registers.
 */
module Store {
  import opened Wrappers
  import opened Models

  class Database {
    var users: map<Id, User>
    var events: map<Id, Event>

    /** The constraints every successful write keeps. */
    predicate Valid()
      reads this
    {
      StoreValid(users, events)
    }

    constructor ()
      ensures users == map[] && events == map[]
      ensures Valid()
    {
      users := map[];
      events := map[];
    }

    /**
     * The post-save hook: add the saved event's id to the `events` of the user it
     * names. A failure of that update (`hookFails`) is logged and swallowed, so the
     * save still succeeds and the user is left as it was.
     */
    method AfterEventSave(id: Id, hookFails: bool)
      requires id in events
      requires Valid()
      modifies this
      ensures Valid()
      ensures events == old(events)
      ensures users == if hookFails then old(users) else Attach(old(users), old(events)[id].user, id)
    {
      if !hookFails {
        AttachKeepsValid(users, events, events[id].user, id);
        users := Attach(users, events[id].user, id);
      }
    }
  }
}
