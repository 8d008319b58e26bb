# Storefront state-and-event core, in Dafny

This project models the state-and-event core of a browser storefront:

- **the event bus** (`EventEmitter`): a registry of topics, each an exact event name, the wildcard `"*"` or a RegExp, with a set of subscribers per topic; `on`, `off`, `onAll`, `offAll`, `emit` and `trigger`;
- **the observable model base** (`Model`): a container built from a data snapshot and a bus handle, which announces its changes with `emitChanges`;
- **the application state** (`AppData`): catalog, basket (unique by product id, in insertion order), order draft, preview id and form errors, with the operations that change them and announce the change. The order draft is validated in two independent phases, delivery and contact.

Files and modules:

- `js_values.dfy` (`JsValues`): the JavaScript values that travel as payloads. It also models the `??` nullish test, the `||` falsy test and what an object spread `{...v}` copies.
- `seqs.dfy` (`Seqs`): sequences standing for arrays and for insertion-ordered `Set`s, with `filter` and its lemmas.
- `events.dfy` (`Events`): the registry as an insertion-ordered map (`TopicMap`). JavaScript's `Map` and `Set` iterate in insertion order, and that order is the order in which `emit` calls subscribers. `Subscribe`/`Unsubscribe` are the registry updates made by `on`/`off`. `Dispatch` gives the subscriber calls of one `emit`. The class `EventEmitter` holds the registry in `topics` and a ghost log `published` of every `emit` call.
- `model.dfy` (`ObservableModel`): class `Model`, with the bus handle as a constant.
- `app_data.dfy` (`AppState`): products, the order draft and the basket functions, with their lemmas. The error map of each validation phase is `PhaseErrors`. Class `AppData` composes a `Model` (`base`). Its state-changing operations are methods whose postconditions state the new fields and the events appended to the bus log. The queries `IsProductInBasket`, `GetTotal` and `GetPurchaseIds` delegate to `HasId`, `Total` and `Ids`.

Subscribers are callback identities. A call of a subscriber is a `Delivery(to, payload)` value. `Emit` returns these values in call order and does not run any code. RegExp topics are pattern identities, and their `test` is the function `matches` that the emitter is constructed with.

Facts about the code:

- `AppData` defines no `calculateTotal`, though `src/index.ts:254` calls it.
- `createEmptyOrder` creates only payment, email, phone and address; `src/index.ts:87,257` later assigns `order.items` and `order.total`.
- `emit` does not isolate a subscriber that throws.
- `setProductPreview` does not check that the item is in the catalog.

## Model

| member | source | states |
|---|---|---|
| `JsValues.SpreadOrEmpty` | src/components/base/events.ts:70-71 | replacing a falsy value by `{}` before spreading copies the same properties as spreading the value itself |
| `Seqs.FilterMembers` | src/components/AppData.ts:65 | an element is in the filtered sequence iff it is in the input and the predicate accepts it |
| `Seqs.FilterConcat` | src/components/AppData.ts:65 | filtering distributes over concatenation, so kept elements keep their relative order |
| `Seqs.FilterKeepsAll` | src/components/AppData.ts:65 | filtering with a predicate that accepts every element returns the input unchanged |
| `Seqs.FilterDistinct` | src/components/base/events.ts:29 | filtering a repetition-free sequence leaves it repetition-free, so a `Set` stays a set after `delete` |
| `Events.EraseMembers` | src/components/base/events.ts:29 | `Set.delete` leaves exactly the old members minus the removed one, and keeps members distinct |
| `Events.SubscribeSpec` | src/components/base/events.ts:16-21 | `on` keeps every topic non-empty and duplicate-free; on the `Map<topic, Set>` view it adds `cb` to the topic's set, creating the topic if missing, and changes no other topic |
| `Events.CreateThenAdd` | src/components/base/events.ts:17-20 | creating an empty set for a missing topic and then adding `cb` unless it is present has the same result as `Subscribe` |
| `Events.Subscribe` | src/components/base/events.ts:16-21 | the registry after `on(t, cb)`: `cb` is in `t`'s set, existing topics keep their places and a new topic goes last, and every other topic keeps its set (the `Map` view is `SubscribeSpec`) |
| `Events.SubscribeIdempotent` | src/components/base/events.ts:20 | registering the same callback twice for the same topic has the effect of registering it once |
| `Events.UnsubscribeSpec` | src/components/base/events.ts:26-34 | `off` keeps the registry well formed; it removes `cb` from the topic's set, deletes the topic when the set becomes empty, and leaves an unknown topic and all other topics alone |
| `Events.Unsubscribe` | src/components/base/events.ts:26-34 | the registry after `off(t, cb)`: `cb` is no longer in `t`'s set, no topic is added, and every other topic keeps its set (the `Map` view is `UnsubscribeSpec`) |
| `Events.UnsubscribeUndoesSubscribe` | src/components/base/events.ts:16-34 | `off(t, cb)` right after `on(t, cb)` for a new subscription restores the registry exactly, including insertion order |
| `Events.TopicDeliveriesMembers` | src/components/base/events.ts:41-46 | one registry entry calls a subscriber with a value iff the subscriber is in its set and the value is the envelope (wildcard topic) or the raw data (topic equal to the name or RegExp matching it) |
| `Events.FanoutMembers` | src/components/base/events.ts:39-48 | `emit` calls subscriber `s` with `v` iff some registered topic has `s` and hands it `v`: the envelope `{eventName, data}` from `"*"`, the raw data from an equal or matching topic |
| `Events.Dispatch` | src/components/base/events.ts:39-48 | the calls of one `emit`, in `Map` order: subscriber `s` is called with `v` iff some registered topic has `s` and hands it `v` (envelope from `"*"`, raw data from an equal or matching topic); the order itself is `Emit`'s and `FanoutStep`'s |
| `Events.FanoutSilent` | src/components/base/events.ts:39-48 | an event that no registered topic routes, with no wildcard topic registered, calls no subscriber |
| `Events.FanoutStep` | src/components/base/events.ts:40-47 | visiting the next registry entry in insertion order appends exactly that entry's calls |
| `Events.VisitRegistry` | src/components/base/events.ts:40-47 | the `_events.forEach` loop collects exactly the calls of every registry entry, in insertion order |
| `Events.SubscriberIsCalled` | src/components/base/events.ts:16-48 | after `on(name, cb)`, `emit(name, data)` calls `cb` with `data` |
| `Events.UnsubscribedHearsOthers` | src/components/base/events.ts:26-48 | after `off(t, cb)`, every call `cb` still receives comes from a different topic it is subscribed to |
| `Events.WildcardDeliveries` | src/components/base/events.ts:41-46 | wildcard subscribers get the envelope on every event, and the raw data as well only when the event name is itself `"*"` |
| `Events.TriggerPayload` | src/components/base/events.ts:67-74 | the triggered payload is an object whose keys are the union of the call-time event's and the context's; a context field wins on a key conflict, and other event fields pass through |
| `Events.TriggerDefaults` | src/components/base/events.ts:68-72 | with the event omitted the payload is the context's properties; with the context omitted it is the event's |
| `Events.Notify` | src/components/base/events.ts:45 | calling every member of one subscriber set yields one call per member, in set order, each with the same argument |
| `Events.EventEmitter.constructor` | src/components/base/events.ts:9-11 | a new bus has an empty registry and has published nothing |
| `Events.EventEmitter.On` | src/components/base/events.ts:16-21 | the registry becomes `Subscribe(old, t, cb)`, stays well formed, and its set view gains `cb` under `t` |
| `Events.EventEmitter.Off` | src/components/base/events.ts:26-34 | the registry becomes `Unsubscribe(old, t, cb)`, stays well formed, and its set view loses `cb` under `t`, dropping the topic when it empties |
| `Events.EventEmitter.OnAll` | src/components/base/events.ts:53-55 | has exactly the effect of `on("*", cb)` |
| `Events.EventEmitter.OffAll` | src/components/base/events.ts:60-62 | leaves the registry empty |
| `Events.EventEmitter.Emit` | src/components/base/events.ts:39-48 | returns the subscriber calls in registry insertion order, leaves the registry unchanged (only the log may change), and appends exactly one event to the log |
| `Events.EventEmitter.Trigger` | src/components/base/events.ts:67-74 | calling the handler `trigger` returns emits the name once, with the event merged under the context |
| `ObservableModel.Model.constructor` | src/components/base/model.ts:14-19 | the instance holds every field of the snapshot, and its bus handle is the one passed in; it is a constant and never reassigned |
| `ObservableModel.Model.EmitChanges` | src/components/base/model.ts:24-26 | publishes exactly one event under the given name: `{}` for an omitted or null payload, any other payload unchanged |
| `AppState.HasId` | src/components/AppData.ts:53-55 | true iff some basket entry has the given id |
| `AppState.Ids` | src/components/AppData.ts:94-96 | the purchase ids are as many as the basket entries, and the i-th is the i-th entry's id |
| `AppState.IdsMembers` | src/components/AppData.ts:94-96 | an id is among the purchase ids iff the basket has it; the purchase ids are distinct iff the basket's ids are |
| `AppState.WithoutIdMembers` | src/components/AppData.ts:64-65 | an entry survives removal iff it was in the basket and has a different id |
| `AppState.WithoutId` | src/components/AppData.ts:64-65 | the basket after `filter(product => product.id !== id)`: no longer than before and holding no entry with that id (which entries survive, both directions: `WithoutIdMembers`) |
| `AppState.WithoutAbsentId` | src/components/AppData.ts:64-65 | removing an id the basket does not hold leaves its contents unchanged |
| `AppState.WithoutIdUnique` | src/components/AppData.ts:64-65 | removal keeps basket ids pairwise distinct and leaves no entry with the removed id |
| `AppState.WithoutIdSplit` | src/components/AppData.ts:64-65 | when the entries around `p` all have other ids, filtering out `p`'s id drops exactly `p` and keeps the rest in order |
| `AppState.PrependUnique` | src/components/AppData.ts:64-65 | a product with a new id put in front of a basket with distinct ids keeps the ids distinct; it is the inductive step of the removal proof `WithoutIdUnique`, since `filter` rebuilds the basket from its first entry on |
| `AppState.AppendUnique` | src/components/AppData.ts:57-62 | appending a product with a new id keeps the basket ids pairwise distinct |
| `AppState.RemoveUndoesAdd` | src/components/AppData.ts:57-67 | removing the id of a product just added restores the previous basket |
| `AppState.TotalConcat` | src/components/AppData.ts:90-92 | the total of two baskets put together is the sum of their totals |
| `AppState.Total` | src/components/AppData.ts:90-92 | the `reduce` sum of the prices, null counting as 0; never negative when no price is (additivity in `TotalConcat`, removal in `TotalWithoutId`) |
| `AppState.TotalWithoutId` | src/components/AppData.ts:64-65 | removing one entry's id from a basket with distinct ids lowers the total by exactly that entry's price (0 when the price is null) |
| `AppState.PhaseErrorsStepwise` | src/components/AppData.ts:100-121 | adding each field's error one after the other, as validation does, gives the phase's error map |
| `AppState.PhaseErrors` | src/components/AppData.ts:100-121 | the error map one validation phase builds: delivery reports only `payment`/`address`, contact only `email`/`phone`, and every message is non-empty (which keys appear when: `DeliveryErrors`, `ContactErrors`) |
| `AppState.NoKeys` | src/components/AppData.ts:124 | an error map has zero keys exactly when it is empty, which is when validation reports success |
| `AppState.DeliveryErrors` | src/components/AppData.ts:103-111 | delivery errors have key `payment` iff payment is `""`, key `address` iff address is `""`, and no other keys; each carries its message, and the map is empty iff both fields are filled |
| `AppState.ContactErrors` | src/components/AppData.ts:113-121 | contact errors have key `email` iff email is `""`, key `phone` iff phone is `""`, and no other keys; each carries its message, and the map is empty iff both fields are filled |
| `AppState.PhasesIndependent` | src/components/AppData.ts:75-88 | changing the contact fields never changes the delivery errors, and changing the delivery fields never changes the contact errors |
| `AppState.EmptyOrder` | src/components/AppData.ts:17-24 | the draft `createEmptyOrder` returns has every field blank, so delivery validation reports both `payment` and `address` and contact validation both `email` and `phone` |
| `AppState.AppData.constructor` | src/components/AppData.ts:8-13 | after the base copies the snapshot, the catalog and basket are empty, the order is the empty draft, there is no preview and there are no errors |
| `AppState.AppData.ResetBasket` | src/components/AppData.ts:26-29 | empties the basket, then emits `counter:changed` and then `basket:changed`, each once with the empty basket |
| `AppState.AppData.ResetOrder` | src/components/AppData.ts:31-33 | payment, email, phone and address all become `""`, and no other field changes |
| `AppState.AppData.SetCatalog` | src/components/AppData.ts:37-40 | the catalog becomes the given items; `items:changed` is emitted once with `{catalog}`; the basket and the registry are not touched |
| `AppState.AppData.SetProductPreview` | src/components/AppData.ts:42-45 | the preview becomes the item's id, and `preview:changed` is emitted once with the item |
| `AppState.AppData.GetBasketProducts` | src/components/AppData.ts:49-51 | returns the basket's current entries |
| `AppState.AppData.IsProductInBasket` | src/components/AppData.ts:53-55 | true iff some basket entry has the item's id |
| `AppState.AppData.AddProductToBasket` | src/components/AppData.ts:57-62 | a present id leaves the basket unchanged and emits nothing; a new id appends the item, then emits `counter:changed` and `basket:changed` once each with the basket; ids stay distinct |
| `AppState.AppData.RemoveProductFromBasket` | src/components/AppData.ts:64-67 | the basket becomes the old one with that id filtered out, and no entry with the id remains; both events are emitted in order, even when nothing was removed |
| `AppState.AppData.UpdateBasketState` | src/components/AppData.ts:69-72 | appends `counter:changed` then `basket:changed`, both carrying the current basket |
| `AppState.AppData.SetPaymentMethod` | src/components/AppData.ts:75-78 | changes only `order.payment`, then leaves the delivery errors in `formErrors` and emits them once |
| `AppState.AppData.SetOrderFieldDelivery` | src/components/AppData.ts:80-83 | changes only `order.address`, then leaves the delivery errors in `formErrors` and emits them once |
| `AppState.AppData.SetOrderFieldContact` | src/components/AppData.ts:85-88 | changes only the named contact field, then leaves the contact errors in `formErrors` and emits them once |
| `AppState.AppData.GetTotal` | src/components/AppData.ts:90-92 | the basket's `Total`; never negative when no price is |
| `AppState.AppData.GetPurchaseIds` | src/components/AppData.ts:94-96 | as many ids as basket entries, the i-th being the i-th entry's id (membership and distinctness in `IdsMembers`) |
| `AppState.AppData.ValidateOrder` | src/components/AppData.ts:100-125 | `formErrors` becomes only this phase's error map; it is emitted once under the phase's event; the result is true iff the map is empty |

## Left out

- Network client, DOM components and composition root: HTTP transport, rendering and wiring are I/O. This covers `src/components/base/api.ts`, `Card.ts`, `BasketCard.ts`, `Component.ts` and `src/index.ts`. The wiring calls an `AppData.calculateTotal` that the class does not define.
- Product wrapper: the catalog wrapper class `Product` (`src/components/Product.ts`) is not part of this model. Catalog entries and payloads carry the record's six fields (`IProductInfo`).
- Subscriber code: callbacks are recorded as `Delivery` values, not run. The model leaves out what a callback does, including an `on`/`off` made during an `emit` and an exception that, in the code, would abort the rest of that `emit`.
- RegExp semantics: `test` is the emitter's `matches` parameter. The `lastIndex` state of global RegExps is not modelled.
- Aliasing: payloads are recorded as values at emit time. The code passes the live basket array, so a subscriber that keeps it later sees pushes made in place by `addProductToBasket`.
- `AppState.AppData.GetBasketProducts`: the result is a value. The code returns the live basket array, and a later `addProductToBasket` pushes into that same array, so a caller holding the result sees the change.
- Numbers: prices are integers rather than IEEE doubles.
- TypeScript casts: `method as PaymentMethods` checks nothing at run time, so any payment string is accepted.
- `isModel`: the `instanceof` test in model.ts:6-8 is a run-time type check with no state.
- `ObservableModel.Model.constructor`: the bus handle is kept apart from the snapshot. At run time `Object.assign` would overwrite the handle if the snapshot had a key named `events`, because `readonly` is only checked at compile time.
- Async ordering: the order of network callbacks is a browser event-loop concern outside this core.
