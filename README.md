# GLS ADE shipment model in Dafny

A model of the in-memory shipment classes of the GLS ADE client library:
a `Consignment` (one shipment), the ordered collection of `Parcel` objects it
owns, and its `SenderAddress`. All three are PHP objects whose setters update
fields in place, so each is a Dafny `class`; the parcel collection is a
`seq<Parcel>` field, and parcels are references, compared by identity.

Modules, one per source class plus three helpers:

- `Wrappers`: `Option` (PHP `null` or a value) and `Slot` (a PHP typed
  property with no default: uninitialised, or holding a value).
- `Collection`: what the consignment uses of Doctrine's `ArrayCollection`,
  as functions on sequences. `Added` is `if (!contains(p)) add(p)`, and
  `Removed` is `removeElement(p)`, which drops the first occurrence.
- `External`: the types the core stores but never inspects (`ServicesBool`,
  `ServiceDaw`, `ServiceIdent`, `ServicePpe`, `DateTime`, PHP floats).
- `Parcels`, `Addresses`, `Consignments`: the three classes.

Three kinds of "absent" are told apart, as PHP does:

- `Consignment`'s properties are untyped, so they start as `null` (`None` or a
  null reference). Its getters always succeed.
- `Parcel`'s properties, and `SenderAddress`'s five required ones, are typed
  with no default. Reading one before it is set is an error, so those getters
  carry `requires field.Init?`.
- `SenderAddress.name2` and `name3` are `?string` with default `null`.

Every getter except `getParcels` is a function that reads only its own field
(`reads this`f`); `getParcels` creates the collection lazily, so it is the
method `GetParcels`, which may modify only `parcels`.
Every setter is a method that may modify only its own field
(`modifies this`f`). That frame is the verified statement that "the setter
changes nothing else". It also means no client operation changes the
output-only fields, since no method's frame names them: `Consignment.quantity`
and `srvAde`, and `Parcel.number` and `srvAde`.

`Consignment.Valid()` says the collection, once created, holds no parcel
twice. `AddParcel` and `RemoveParcel` preserve it, using the lemmas in
`Collection`.

The doc comment of `Consignment`'s `weight` (src/Model/Consignment.php:178-189)
says the value is corrected automatically from the parcels, yet `setWeight`
(src/Model/Consignment.php:654-657) writes it, and the model keeps that
setter. `sendaddr` holds a `SenderAddress` object
(src/Model/Consignment.php:215-225), kept as the reference `SenderAddress?`.

## Model

| member | source | states |
|---|---|---|
| `Collection.Added` | src/Model/Consignment.php:468-473 | The added parcel is in the result. The old elements are an unchanged prefix, with at most one element after them. The result equals the input exactly when the parcel was already present. |
| `Collection.AddedIdempotent` | src/Model/Consignment.php:470 | Adding the same parcel twice gives the same collection as adding it once. |
| `Collection.AddedNoDuplicates` | src/Model/Consignment.php:468-473 | Adding never introduces a duplicate into a duplicate-free collection. |
| `Collection.FirstIndex` | src/Model/Consignment.php:480 | The position `removeElement` finds with a strict search: the element is at that position and at no earlier one. |
| `Collection.Removed` | src/Model/Consignment.php:480 | `removeElement` drops the first occurrence. Its contract gives the length: one less when the element was present, unchanged otherwise. Its other properties are the `Removed*` lemmas below. |
| `Collection.RemovedAbsent` | src/Model/Consignment.php:478-481 | Removing a parcel that is not present leaves the collection unchanged. |
| `Collection.RemovedSplice` | src/Model/Consignment.php:478-481 | Removing a present parcel cuts out exactly its first occurrence. The elements before it and after it keep their relative order, and the length drops by one. |
| `Collection.RemovedSubset` | src/Model/Consignment.php:478-481 | Removal never introduces an element that was not in the collection. |
| `Collection.RemovedContents` | src/Model/Consignment.php:478-481 | In a duplicate-free collection, an element is in the result exactly when it was in the input and is not the removed parcel. The removed parcel is gone. |
| `Collection.RemovedNoDuplicates` | src/Model/Consignment.php:478-481 | Removal keeps a duplicate-free collection duplicate-free. |
| `Collection.RemovedIdempotent` | src/Model/Consignment.php:478-481 | In a duplicate-free collection, removing the same parcel twice equals removing it once. |
| `Collection.RemovedUndoesAdded` | src/Model/Consignment.php:468-481 | Adding a parcel that was absent and then removing it restores the original collection. |
| `Consignments.Consignment.constructor` | src/Model/Consignment.php:25-307 | A new consignment has every property null, no parcel collection yet, is not dispatched, and satisfies the no-duplicates invariant. |
| `Consignments.Consignment.GetParcels` | src/Model/Consignment.php:456-463 | Afterwards the collection exists. If it was absent it is now empty. If it existed, it is returned unchanged, so repeated calls return the same elements. Only `parcels` may change. |
| `Consignments.Consignment.AddParcel` | src/Model/Consignment.php:468-473 | The collection becomes `Added(old, p)`: `p` is appended at the end when absent and nothing changes when present. A missing collection is created first. The no-duplicates invariant is preserved. Only `parcels` may change. |
| `Consignments.Consignment.RemoveParcel` | src/Model/Consignment.php:478-481 | The collection becomes `Removed(old, p)`, created empty first if missing. The no-duplicates invariant is preserved. Only `parcels` may change. |
| `Consignments.Consignment.SetId` | src/Model/Consignment.php:312-323 | `GetId()` returns the new id. Only `id` may change. |
| `Consignments.Consignment.SetRCity` | src/Model/Consignment.php:328-339 | `GetRCity()` returns the new city. Only `rcity` may change. |
| `Consignments.Consignment.SetRContact` | src/Model/Consignment.php:344-355 | `GetRContact()` returns the new contact. Only `rcontact` may change. |
| `Consignments.Consignment.SetRCountry` | src/Model/Consignment.php:360-371 | `GetRCountry()` returns the new country code. Only `rcountry` may change. |
| `Consignments.Consignment.SetDate` | src/Model/Consignment.php:376-387 | `GetDate()` returns the given date object. Only `date` may change. |
| `Consignments.Consignment.SetRName1` | src/Model/Consignment.php:392-403 | `GetRName1()` returns the new name line. Only `rname1` may change. |
| `Consignments.Consignment.SetRName2` | src/Model/Consignment.php:408-419 | `GetRName2()` returns the new name line. Only `rname2` may change. |
| `Consignments.Consignment.SetRName3` | src/Model/Consignment.php:424-435 | `GetRName3()` returns the new name line. Only `rname3` may change. |
| `Consignments.Consignment.SetNotes` | src/Model/Consignment.php:440-451 | `GetNotes()` returns the new notes. Only `notes` may change. |
| `Consignments.Consignment.SetPfc` | src/Model/Consignment.php:486-497 | `GetPfc()` returns the new cost-centre id. Only `pfc` may change. |
| `Consignments.Consignment.SetRPhone` | src/Model/Consignment.php:502-513 | `GetRPhone()` returns the new phone. Only `rphone` may change. |
| `Consignments.Consignment.SetReferences` | src/Model/Consignment.php:526-537 | `GetReferences()` returns the new references. Only `references` may change. |
| `Consignments.Consignment.SetSenderAddress` | src/Model/Consignment.php:542-553 | `GetSenderAddress()` returns the argument. A null argument is stored, so the address becomes absent again. Only `sendaddr` may change. |
| `Consignments.Consignment.SetServiceDaw` | src/Model/Consignment.php:558-569 | `GetServiceDaw()` returns the argument, null included. Only `srvDaw` may change. |
| `Consignments.Consignment.SetServiceIdent` | src/Model/Consignment.php:574-585 | `GetServiceIdent()` returns the argument, null included. Only `srvIdent` may change. |
| `Consignments.Consignment.SetServicePpe` | src/Model/Consignment.php:590-601 | `GetServicePpe()` returns the argument, null included. Only `srvPpe` may change. |
| `Consignments.Consignment.SetServicesBool` | src/Model/Consignment.php:614-625 | `GetServicesBool()` returns the given flags object. Only `srvBool` may change. |
| `Consignments.Consignment.SetRStreet` | src/Model/Consignment.php:630-641 | `GetRStreet()` returns the new street. Only `rstreet` may change. |
| `Consignments.Consignment.SetWeight` | src/Model/Consignment.php:646-657 | `GetWeight()` returns the string cast of the given float. Only `weight` may change. |
| `Consignments.Consignment.SetRZipCode` | src/Model/Consignment.php:662-673 | `GetRZipCode()` returns the new zip code. Only `rzipcode` may change. |
| `Consignments.Consignment.SetDispatched` | src/Model/Consignment.php:678-686 | `IsDispatched()` returns the given flag. Only `dispatched` may change. |
| `Parcels.Parcel.constructor` | src/Model/Parcel.php:17-70 | A new parcel has all five typed properties uninitialised, so every getter is unavailable until the matching setter runs. `number` and `srvAde` have no setter. |
| `Parcels.Parcel.SetReference` | src/Model/Parcel.php:83-94 | The reference is initialised and `GetReference()` returns it. Only `reference` may change. |
| `Parcels.Parcel.SetServicesBool` | src/Model/Parcel.php:107-118 | The flags are initialised and `GetServicesBool()` returns the given object. Only `srvBool` may change. |
| `Parcels.Parcel.SetWeight` | src/Model/Parcel.php:123-134 | The weight text is stored verbatim, with no precondition: values below the documented 0.01 kg minimum are accepted. `GetWeight()` returns it. Only `weight` may change. |
| `Addresses.SenderAddress.constructor` | src/Model/SenderAddress.php:17-92 | A new address has `name2` and `name3` null and the five required fields uninitialised. |
| `Addresses.SenderAddress.SetCity` | src/Model/SenderAddress.php:97-108 | `GetCity()` returns the new city. Only `city` may change. |
| `Addresses.SenderAddress.SetCountry` | src/Model/SenderAddress.php:113-124 | `GetCountry()` returns the new country code. Only `country` may change. |
| `Addresses.SenderAddress.SetName1` | src/Model/SenderAddress.php:129-140 | `GetName1()` returns the new name line. Only `name1` may change. |
| `Addresses.SenderAddress.SetName2` | src/Model/SenderAddress.php:145-156 | `GetName2()` returns the argument, null included. Only `name2` may change. |
| `Addresses.SenderAddress.SetName3` | src/Model/SenderAddress.php:161-172 | `GetName3()` returns the argument, null included. Only `name3` may change. |
| `Addresses.SenderAddress.SetStreet` | src/Model/SenderAddress.php:177-188 | `GetStreet()` returns the new street. Only `street` may change. |
| `Addresses.SenderAddress.SetZipCode` | src/Model/SenderAddress.php:193-204 | `GetZipCode()` returns the new zip code, which the setter writes to `zipcode`. Only `zipcode` may change. |

The getters have no contracts of their own: each is a function returning its
field, and the setters' contracts above are stated through them.

- Getters with a precondition (PHP's error on reading an uninitialised typed
  property): the five `Parcel` getters `GetNumber`, `GetReference`,
  `GetServiceAde`, `GetServicesBool` and `GetWeight`, and `SenderAddress`'s
  `GetName1`, `GetCountry`, `GetZipCode`, `GetCity` and `GetStreet`. All
  other getters, including every `Consignment` getter and
  `SenderAddress.GetName2`/`GetName3`, always succeed.
- Getters with no setter: `Consignment.GetQuantity` and `GetServicesAde`,
  and `Parcel.GetNumber` and `GetServiceAde`.

`CurrentParcels` is notation for the elements `getParcels` finds, with a
missing collection read as empty; `AddParcel` and `RemoveParcel` state their
results through it.

## Left out

- src/Api/PickupApi.php, the whole file: each method builds an operation name and a parameter array and passes them to `request()` on a session-aware base class, which is not part of this model. Responses are returned unexamined. In passing: `getConsignmentLabels` passes an empty operation name at src/Api/PickupApi.php:151.
- Pickup-id pagination (src/Api/PickupApi.php:43-54): this is remote-server behaviour described in a comment. The library contains no paging loop.
- Serialisation: the wire names, the `input` group and the date format are serializer annotations. The serializer library that acts on them is not part of this model. Objects built by deserialisation, such as a `Parcel` whose `number` is set, can therefore not be produced inside the model.
- `Consignments.Consignment.SetWeight`: PHP's float-to-string rendering is not modelled. A `PhpFloat` stands for the float and carries the text its `(string)` cast gives.
- `Consignments.Consignment.SetDispatched`: takes a Dafny `bool`. The source's `(bool)` cast of an arbitrary PHP value (truthiness) is not modelled.
- `ServicesBool`, `ServiceDaw`, `ServiceIdent`, `ServicePpe`, `DateTime` and `Pickup` are not part of this model. The first five appear only as empty classes with no fields, and `Pickup` does not appear at all.
- Doctrine `ArrayCollection` internals: the collection is a sequence. `contains` and `removeElement` are taken to compare by strict identity and `removeElement` to drop the first match. The library source is not part of this model, so this is an assumption.
- `Consignments.Consignment.GetParcels`: returns the elements, not the live collection object. Mutation by callers through the returned object, which could add duplicates, is not modelled. Only `AddParcel` and `RemoveParcel` change the collection.
- Argument types: the string setters take `string`, as their doc comments say. For the typed properties of `Parcel` and `SenderAddress`, PHP's weak-mode coercion of other scalars is not modelled. `Consignment`'s properties are untyped, so its setters store any PHP value as it is (`setRCity(5)` stores the int 5, and `null` is stored too). The model accepts only the type each doc comment gives.
