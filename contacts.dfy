/** The mother's emergency contacts: the list and the add-contact form. */
module Contacts {

  datatype Contact = Contact(id: string, name: string, relationship: string, phone: string,
                             isPrimary: bool)

  datatype ContactForm = ContactForm(name: string, relationship: string, phone: string)

  const BlankContactForm := ContactForm("", "", "")

  /** The form may be submitted once all three fields are filled in. */
  predicate Complete(f: ContactForm) {
    f.name != "" && f.relationship != "" && f.phone != ""
  }

  class ContactsPage {
    var contacts: seq<Contact>
    var showAddModal: bool
    var newContact: ContactForm

    constructor (initial: seq<Contact>)
      ensures contacts == initial && !showAddModal && newContact == BlankContactForm
    {
      contacts := initial;
      showAddModal := false;
      newContact := BlankContactForm;
    }

    /** `handleAddContact`: a complete form becomes a new, non-primary
        contact at the end of the list, and the form resets and the dialog
        closes; an incomplete form changes nothing. Adding never makes a
        primary contact: every primary contact afterwards was one before. */
    method HandleAddContact(id: string)
      modifies this
      ensures !Complete(old(newContact)) ==>
        contacts == old(contacts) && newContact == old(newContact) && showAddModal == old(showAddModal)
      ensures Complete(old(newContact)) ==>
        && contacts == old(contacts) + [Contact(id, old(newContact).name, old(newContact).relationship,
                                                old(newContact).phone, false)]
        && newContact == BlankContactForm
        && !showAddModal
      ensures forall i :: 0 <= i < |contacts| && contacts[i].isPrimary ==>
        i < |old(contacts)| && old(contacts)[i].isPrimary
    {
      if Complete(newContact) {
        var contact := Contact(id, newContact.name, newContact.relationship, newContact.phone, false);
        contacts := contacts + [contact];
        newContact := BlankContactForm;
        showAddModal := false;
      }
    }
  }
}
