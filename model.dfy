/** The observable model base (class `Model`): a state container built from
    a snapshot of its data and a handle to the event bus, which it uses to
    announce its changes. */
module ObservableModel {
  import opened JsValues
  import opened Events

  class Model {
    /** The bus handle, a constructor parameter property declared readonly. */
    const events: EventEmitter
    /** The own properties `Object.assign(this, data)` copies from the snapshot. */
    var props: map<string, Value>

    constructor (data: map<string, Value>, events: EventEmitter)
      ensures this.events == events
      ensures props == data
    {
      this.events := events;
      props := data;
    }

    /** `emitChanges(event, payload)`: publish one event under `event`,
        with `{}` for an omitted (or null) payload. */
    method EmitChanges(event: string, payload: Value)
      requires events.Valid()
      modifies events`published
      ensures Nullish(payload) ==> events.published == old(events.published) + [Event(event, EmptyObject)]
      ensures !Nullish(payload) ==> events.published == old(events.published) + [Event(event, payload)]
    {
      var data := if Nullish(payload) then EmptyObject else payload;
      var delivered := events.Emit(event, data);
    }
  }
}
