/**
 * The phone book of `m00/ex01`: a contact holds five text fields that its
 * `Change*` setters overwrite one at a time, the book appends new contacts,
 * and `print_max_10` fits a field into a ten-character column.
 */
module PhoneBooks {
  import opened Wrappers

  class Contact {
    var firstName: string
    var lastName: string
    var nickname: string
    var phoneNumber: string
    var darkestSecret: string

    /** `Contact::new`: every field empty. */
    constructor ()
      ensures firstName == "" && lastName == "" && nickname == "" && phoneNumber == "" && darkestSecret == ""
    {
      firstName := "";
      lastName := "";
      nickname := "";
      phoneNumber := "";
      darkestSecret := "";
    }

    method ChangeFirstName(newFirstName: string)
      modifies this
      ensures firstName == newFirstName
      ensures lastName == old(lastName) && nickname == old(nickname)
      ensures phoneNumber == old(phoneNumber) && darkestSecret == old(darkestSecret)
    {
      firstName := newFirstName;
    }

    method ChangeLastName(newLastName: string)
      modifies this
      ensures lastName == newLastName
      ensures firstName == old(firstName) && nickname == old(nickname)
      ensures phoneNumber == old(phoneNumber) && darkestSecret == old(darkestSecret)
    {
      lastName := newLastName;
    }

    method ChangeNickname(newNickname: string)
      modifies this
      ensures nickname == newNickname
      ensures firstName == old(firstName) && lastName == old(lastName)
      ensures phoneNumber == old(phoneNumber) && darkestSecret == old(darkestSecret)
    {
      nickname := newNickname;
    }

    method ChangePhoneNumber(newPhoneNumber: string)
      modifies this
      ensures phoneNumber == newPhoneNumber
      ensures firstName == old(firstName) && lastName == old(lastName)
      ensures nickname == old(nickname) && darkestSecret == old(darkestSecret)
    {
      phoneNumber := newPhoneNumber;
    }

    method ChangeSecret(newSecret: string)
      modifies this
      ensures darkestSecret == newSecret
      ensures firstName == old(firstName) && lastName == old(lastName)
      ensures nickname == old(nickname) && phoneNumber == old(phoneNumber)
    {
      darkestSecret := newSecret;
    }
  }

  class PhoneBook {
    var contacts: seq<Contact>

    /** `PhoneBook::new`: no contact. */
    constructor ()
      ensures contacts == []
    {
      contacts := [];
    }

    /**
     * `new_contact`: a new contact filled from the five answers, one field
     * per setter, appended after the existing ones, which stay as they were.
     */
    method NewContact(first: string, last: string, nick: string, phone: string, secret: string)
      modifies this
      ensures |contacts| == |old(contacts)| + 1 && contacts[..|old(contacts)|] == old(contacts)
      ensures fresh(contacts[|contacts| - 1])
      ensures var c := contacts[|contacts| - 1];
              c.firstName == first && c.lastName == last && c.nickname == nick &&
              c.phoneNumber == phone && c.darkestSecret == secret
      ensures forall c :: c in old(contacts) ==> unchanged(c)
    {
      var contact := new Contact();
      contact.ChangeFirstName(first);
      contact.ChangeLastName(last);
      contact.ChangeNickname(nick);
      contact.ChangePhoneNumber(phone);
      contact.ChangeSecret(secret);
      contacts := contacts + [contact];
    }
  }

  /** The column width `print_max_10` fits text into. */
  const Column := 10

  /**
   * `print_max_10` as written: longer text is cut to nine characters and a
   * '.'; text of exactly ten characters is returned as is; shorter text
   * enters the padding loop, which never increments `i` and so never ends (None).
   */
  function PrintMax10AsWritten(str: string): (r: Option<string>)
    ensures r.None? <==> |str| < Column
    ensures r.Some? ==> |r.value| == Column && r.value[..9] == str[..9]
    ensures |str| > Column ==> r == Some(str[..9] + ".")
    ensures |str| == Column ==> r == Some(str)
  {
    if |str| > Column then Some(str[..9] + ".")
    else if Column - |str| > 0 then None
    else Some(str)
  }

  /** A short name such as "Bob" never comes back. */
  lemma ShortTextNeverReturns()
    ensures PrintMax10AsWritten("Bob") == None
  {
  }

  /**
   * `print_max_10` as evidently intended: the padding loop advances `i`, so
   * every text comes back exactly ten characters wide — cut to nine and a
   * '.', or padded with spaces.
   */
  method PrintMax10(str: string) returns (r: string)
    ensures |r| == Column
    ensures |str| > Column ==> r == str[..9] + "."
    ensures |str| <= Column ==> r[..|str|] == str && forall k :: |str| <= k < Column ==> r[k] == ' '
  {
    r := str;
    if |r| > Column {
      r := r[..9];
      r := r + ".";
    } else {
      var len := Column - |r|;
      var i := 0;
      while i < len
        invariant 0 <= i <= len && |r| == |str| + i
        invariant r[..|str|] == str && forall k :: |str| <= k < |r| ==> r[k] == ' '
      {
        r := r + [' '];
        i := i + 1;
      }
    }
  }
}
