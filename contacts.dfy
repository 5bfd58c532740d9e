/**
 * `ContactManager`: the favourite-contact list kept under the key "contact_list". Every change
 * reads the whole list, changes it and writes the whole list back.
 */
module Contacts {
  import opened Persistence

  /** A favourite contact the assistant can call. */
  datatype Contact = Contact(id: string, name: string, number: string)

  /** The key `deleteContact` matches on. */
  function ContactId(x: Contact): string
  {
    x.id
  }

  class ContactManager {
    /** What the key-value store holds under "contact_list". */
    var slot: Slot<Contact>

    constructor(slot: Slot<Contact>)
      ensures this.slot == slot
    {
      this.slot := slot;
    }

    /** The list `getContacts` would return now. */
    function Stored(): seq<Contact>
      reads this
    {
      Decode(slot)
    }

    /** The stored list, or nothing at all when the key is empty or its data does not decode. */
    method GetContacts() returns (contacts: seq<Contact>)
      ensures slot.Encoded? ==> contacts == slot.items
      ensures !slot.Encoded? ==> contacts == []
    {
      contacts := Stored();
    }

    /** Overwrites whatever was stored; reading back gives exactly the list written. */
    method SaveContacts(contacts: seq<Contact>)
      modifies this
      ensures slot == Encoded(contacts)
      ensures Stored() == contacts
    {
      slot := Encoded(contacts);
    }

    /** Appends one record at the end; the records already there keep their order. */
    method SaveContact(contact: Contact)
      modifies this
      ensures slot == Encoded(old(Stored()) + [contact])
      ensures Stored()[..|old(Stored())|] == old(Stored()) && Stored()[|old(Stored())|] == contact
    {
      var contacts := GetContacts();
      contacts := contacts + [contact];
      SaveContacts(contacts);
    }

    /**
     * Drops every record with this id and keeps the rest in order; an id no
     * record has leaves the list as it was.
     */
    method DeleteContact(id: string)
      modifies this
      ensures slot == Encoded(Without(old(Stored()), ContactId, id))
      ensures IsSubsequence(Stored(), old(Stored()))
      ensures (forall x :: x in old(Stored()) ==> x.id != id) ==> Stored() == old(Stored())
    {
      var contacts := GetContacts();
      WithoutKeepsOrder(contacts, ContactId, id);
      if forall x :: x in contacts ==> x.id != id {
        WithoutAbsent(contacts, ContactId, id);
      }
      SaveContacts(Without(contacts, ContactId, id));
    }
  }
}
