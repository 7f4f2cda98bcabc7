/**
 * The sender's address: five required text fields (typed, no default, so
 * uninitialised until set) and two optional name lines that start as null.
 */
module Addresses {
  import opened Wrappers

  class SenderAddress {
    var name1: Slot<string>
    var name2: Option<string>
    var name3: Option<string>
    /** ISO 3166-1 alpha-2 country code. */
    var country: Slot<string>
    var zipcode: Slot<string>
    var city: Slot<string>
    var street: Slot<string>

    /** `new SenderAddress()`: the optional lines are null, the required fields unset. */
    constructor ()
      ensures name2 == None && name3 == None
      ensures name1 == Uninitialized && country == Uninitialized && zipcode == Uninitialized
      ensures city == Uninitialized && street == Uninitialized
    {
      name1 := Uninitialized;
      name2 := None;
      name3 := None;
      country := Uninitialized;
      zipcode := Uninitialized;
      city := Uninitialized;
      street := Uninitialized;
    }

    // Getters of the required fields fail in PHP before the field is set.

    function GetCity(): string
      reads this`city
      requires city.Init?
    {
      city.value
    }

    function GetCountry(): string
      reads this`country
      requires country.Init?
    {
      country.value
    }

    function GetName1(): string
      reads this`name1
      requires name1.Init?
    {
      name1.value
    }

    function GetName2(): Option<string>
      reads this`name2
    {
      name2
    }

    function GetName3(): Option<string>
      reads this`name3
    {
      name3
    }

    function GetStreet(): string
      reads this`street
      requires street.Init?
    {
      street.value
    }

    function GetZipCode(): string
      reads this`zipcode
      requires zipcode.Init?
    {
      zipcode.value
    }

    // Setters: each writes its own field and nothing else (the frame).

    method SetCity(c: string)
      modifies this`city
      ensures city.Init? && GetCity() == c
    {
      city := Init(c);
    }

    method SetCountry(k: string)
      modifies this`country
      ensures country.Init? && GetCountry() == k
    {
      country := Init(k);
    }

    method SetName1(n: string)
      modifies this`name1
      ensures name1.Init? && GetName1() == n
    {
      name1 := Init(n);
    }

    /** The property is nullable, so `None` (null) is accepted and stored. */
    method SetName2(n: Option<string>)
      modifies this`name2
      ensures GetName2() == n
    {
      name2 := n;
    }

    /** The property is nullable, so `None` (null) is accepted and stored. */
    method SetName3(n: Option<string>)
      modifies this`name3
      ensures GetName3() == n
    {
      name3 := n;
    }

    method SetStreet(s: string)
      modifies this`street
      ensures street.Init? && GetStreet() == s
    {
      street := Init(s);
    }

    method SetZipCode(z: string)
      modifies this`zipcode
      ensures zipcode.Init? && GetZipCode() == z
    {
      zipcode := Init(z);
    }
  }
}
