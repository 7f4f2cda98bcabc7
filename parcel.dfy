/**
 * A single package of a consignment. Every property is typed and has no
 * default, so each starts uninitialised; `number` and `srv_ade` are filled in
 * only by the remote system and have no setter.
 */
module Parcels {
  import opened Wrappers
  import opened External

  class Parcel {
    /** Package number assigned by the remote system; empty means unassigned. */
    var number: Slot<string>
    var reference: Slot<string>
    /** Weight in kg, as text. The 0.01 kg minimum is enforced remotely only. */
    var weight: Slot<string>
    var srvBool: Slot<ServicesBool>
    /** Services in ADE notation; output only. */
    var srvAde: Slot<string>

    /** `new Parcel()`: no property is initialised yet. */
    constructor ()
      ensures number == Uninitialized && reference == Uninitialized && weight == Uninitialized
      ensures srvBool == Uninitialized && srvAde == Uninitialized
    {
      number := Uninitialized;
      reference := Uninitialized;
      weight := Uninitialized;
      srvBool := Uninitialized;
      srvAde := Uninitialized;
    }

    // Getters: reading a property before it is initialised is an error in PHP.

    function GetNumber(): string
      reads this`number
      requires number.Init?
    {
      number.value
    }

    function GetReference(): string
      reads this`reference
      requires reference.Init?
    {
      reference.value
    }

    function GetServiceAde(): string
      reads this`srvAde
      requires srvAde.Init?
    {
      srvAde.value
    }

    function GetServicesBool(): ServicesBool
      reads this`srvBool
      requires srvBool.Init?
    {
      srvBool.value
    }

    function GetWeight(): string
      reads this`weight
      requires weight.Init?
    {
      weight.value
    }

    // Setters: each writes its own property and nothing else (the frame).

    method SetReference(r: string)
      modifies this`reference
      ensures reference.Init? && GetReference() == r
    {
      reference := Init(r);
    }

    method SetServicesBool(s: ServicesBool)
      modifies this`srvBool
      ensures srvBool.Init? && GetServicesBool() == s
    {
      srvBool := Init(s);
    }

    /** Stores the weight verbatim: no minimum, no format check. */
    method SetWeight(w: string)
      modifies this`weight
      ensures weight.Init? && GetWeight() == w
    {
      weight := Init(w);
    }
  }
}
