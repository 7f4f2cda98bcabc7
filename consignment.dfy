/**
 * A shipment record. Its properties are untyped in PHP and so start as null;
 * `dispatched` starts as false. The parcels form an ordered collection that is
 * created on first use and never holds the same parcel twice.
 */
module Consignments {
  import opened Wrappers
  import opened Collection
  import opened External
  import opened Parcels
  import opened Addresses

  /** The elements `getParcels` finds: a missing collection reads as empty. */
  function CurrentParcels(ps: Option<seq<Parcel>>): seq<Parcel>
  {
    if ps.Some? then ps.value else []
  }

  class Consignment {
    var id: Option<int>
    var rname1: Option<string>
    var rname2: Option<string>
    var rname3: Option<string>
    var rcountry: Option<string>
    var rzipcode: Option<string>
    var rcity: Option<string>
    var rstreet: Option<string>
    var rphone: Option<string>
    var rcontact: Option<string>
    var references: Option<string>
    var notes: Option<string>
    /** Number of parcels, computed remotely; output only. */
    var quantity: Option<string>
    /** Total weight, computed remotely; stored as text. */
    var weight: Option<string>
    var date: DateTime?
    var pfc: Option<string>
    var sendaddr: SenderAddress?
    var srvBool: ServicesBool?
    /** Services in ADE notation; output only. */
    var srvAde: Option<string>
    var srvDaw: ServiceDaw?
    var srvIdent: ServiceIdent?
    var srvPpe: ServicePpe?
    /** The parcel collection; `None` until it is first asked for. */
    var parcels: Option<seq<Parcel>>
    /** Whether the record came from a pickup confirmation rather than the staging area. */
    var dispatched: bool

    /** The collection, once it exists, holds no parcel twice. */
    ghost predicate Valid()
      reads this`parcels
    {
      parcels.Some? ==> NoDuplicates(parcels.value)
    }

    /** `new Consignment()`: every property null, not dispatched, no collection yet. */
    constructor ()
      ensures id == None && rname1 == None && rname2 == None && rname3 == None
      ensures rcountry == None && rzipcode == None && rcity == None && rstreet == None
      ensures rphone == None && rcontact == None && references == None && notes == None
      ensures quantity == None && weight == None && date == null && pfc == None
      ensures sendaddr == null && srvBool == null && srvAde == None
      ensures srvDaw == null && srvIdent == null && srvPpe == null
      ensures parcels == None && !IsDispatched()
      ensures Valid()
    {
      id, rname1, rname2, rname3 := None, None, None, None;
      rcountry, rzipcode, rcity, rstreet := None, None, None, None;
      rphone, rcontact, references, notes := None, None, None, None;
      quantity, weight, date, pfc := None, None, null, None;
      sendaddr, srvBool, srvAde := null, null, None;
      srvDaw, srvIdent, srvPpe := null, null, null;
      parcels := None;
      dispatched := false;
    }

    function GetId(): Option<int>
      reads this`id
    {
      id
    }

    method SetId(i: int)
      modifies this`id
      ensures GetId() == Some(i)
    {
      id := Some(i);
    }

    function GetRCity(): Option<string>
      reads this`rcity
    {
      rcity
    }

    method SetRCity(c: string)
      modifies this`rcity
      ensures GetRCity() == Some(c)
    {
      rcity := Some(c);
    }

    function GetRContact(): Option<string>
      reads this`rcontact
    {
      rcontact
    }

    method SetRContact(c: string)
      modifies this`rcontact
      ensures GetRContact() == Some(c)
    {
      rcontact := Some(c);
    }

    function GetRCountry(): Option<string>
      reads this`rcountry
    {
      rcountry
    }

    method SetRCountry(k: string)
      modifies this`rcountry
      ensures GetRCountry() == Some(k)
    {
      rcountry := Some(k);
    }

    function GetDate(): DateTime?
      reads this`date
    {
      date
    }

    method SetDate(d: DateTime)
      modifies this`date
      ensures GetDate() == d
    {
      date := d;
    }

    function GetRName1(): Option<string>
      reads this`rname1
    {
      rname1
    }

    method SetRName1(n: string)
      modifies this`rname1
      ensures GetRName1() == Some(n)
    {
      rname1 := Some(n);
    }

    function GetRName2(): Option<string>
      reads this`rname2
    {
      rname2
    }

    method SetRName2(n: string)
      modifies this`rname2
      ensures GetRName2() == Some(n)
    {
      rname2 := Some(n);
    }

    function GetRName3(): Option<string>
      reads this`rname3
    {
      rname3
    }

    method SetRName3(n: string)
      modifies this`rname3
      ensures GetRName3() == Some(n)
    {
      rname3 := Some(n);
    }

    function GetNotes(): Option<string>
      reads this`notes
    {
      notes
    }

    method SetNotes(n: string)
      modifies this`notes
      ensures GetNotes() == Some(n)
    {
      notes := Some(n);
    }

    /**
     * Creates the collection on first use and returns it. Once it exists, the
     * call returns it and changes nothing.
     */
    method GetParcels() returns (ps: seq<Parcel>)
      modifies this`parcels
      ensures parcels == Some(ps)
      ensures old(parcels).Some? ==> ps == old(parcels).value
      ensures old(parcels).None? ==> ps == []
    {
      if parcels.None? {
        parcels := Some([]);
      }
      ps := parcels.value;
    }

    /** Appends `p` unless that very parcel is already in the collection. */
    method AddParcel(p: Parcel)
      modifies this`parcels
      ensures parcels == Some(Added(CurrentParcels(old(parcels)), p))
      ensures old(Valid()) ==> Valid()
    {
      var ps := GetParcels();
      if p !in ps {
        ps := GetParcels();
        parcels := Some(ps + [p]);
      }
      if old(Valid()) {
        AddedNoDuplicates(CurrentParcels(old(parcels)), p);
      }
    }

    /** Removes `p` from the collection; an absent parcel leaves it as it is. */
    method RemoveParcel(p: Parcel)
      modifies this`parcels
      ensures parcels == Some(Removed(CurrentParcels(old(parcels)), p))
      ensures old(Valid()) ==> Valid()
    {
      var ps := GetParcels();
      parcels := Some(Removed(ps, p));
      if old(Valid()) {
        RemovedNoDuplicates(ps, p);
      }
    }

    function GetPfc(): Option<string>
      reads this`pfc
    {
      pfc
    }

    method SetPfc(f: string)
      modifies this`pfc
      ensures GetPfc() == Some(f)
    {
      pfc := Some(f);
    }

    function GetRPhone(): Option<string>
      reads this`rphone
    {
      rphone
    }

    method SetRPhone(t: string)
      modifies this`rphone
      ensures GetRPhone() == Some(t)
    {
      rphone := Some(t);
    }

    /** Output only: there is no setter. */
    function GetQuantity(): Option<string>
      reads this`quantity
    {
      quantity
    }

    function GetReferences(): Option<string>
      reads this`references
    {
      references
    }

    method SetReferences(r: string)
      modifies this`references
      ensures GetReferences() == Some(r)
    {
      references := Some(r);
    }

    function GetSenderAddress(): SenderAddress?
      reads this`sendaddr
    {
      sendaddr
    }

    /** Accepts null, which removes the sender address. */
    method SetSenderAddress(a: SenderAddress?)
      modifies this`sendaddr
      ensures GetSenderAddress() == a
    {
      sendaddr := a;
    }

    function GetServiceDaw(): ServiceDaw?
      reads this`srvDaw
    {
      srvDaw
    }

    /** Accepts null, which removes the DAW data. */
    method SetServiceDaw(s: ServiceDaw?)
      modifies this`srvDaw
      ensures GetServiceDaw() == s
    {
      srvDaw := s;
    }

    function GetServiceIdent(): ServiceIdent?
      reads this`srvIdent
    {
      srvIdent
    }

    /** Accepts null, which removes the IDENT data. */
    method SetServiceIdent(s: ServiceIdent?)
      modifies this`srvIdent
      ensures GetServiceIdent() == s
    {
      srvIdent := s;
    }

    function GetServicePpe(): ServicePpe?
      reads this`srvPpe
    {
      srvPpe
    }

    /** Accepts null, which removes the PPE data. */
    method SetServicePpe(s: ServicePpe?)
      modifies this`srvPpe
      ensures GetServicePpe() == s
    {
      srvPpe := s;
    }

    /** Output only: there is no setter. */
    function GetServicesAde(): Option<string>
      reads this`srvAde
    {
      srvAde
    }

    function GetServicesBool(): ServicesBool?
      reads this`srvBool
    {
      srvBool
    }

    method SetServicesBool(s: ServicesBool)
      modifies this`srvBool
      ensures GetServicesBool() == s
    {
      srvBool := s;
    }

    function GetRStreet(): Option<string>
      reads this`rstreet
    {
      rstreet
    }

    method SetRStreet(s: string)
      modifies this`rstreet
      ensures GetRStreet() == Some(s)
    {
      rstreet := Some(s);
    }

    function GetWeight(): Option<string>
      reads this`weight
    {
      weight
    }

    /** Stores the float as the text of its string cast. */
    method SetWeight(w: PhpFloat)
      modifies this`weight
      ensures GetWeight() == Some(CastToString(w))
    {
      weight := Some(CastToString(w));
    }

    function GetRZipCode(): Option<string>
      reads this`rzipcode
    {
      rzipcode
    }

    method SetRZipCode(z: string)
      modifies this`rzipcode
      ensures GetRZipCode() == Some(z)
    {
      rzipcode := Some(z);
    }

    predicate IsDispatched()
      reads this`dispatched
    {
      dispatched
    }

    method SetDispatched(b: bool)
      modifies this`dispatched
      ensures IsDispatched() == b
    {
      dispatched := b;
    }
  }
}
