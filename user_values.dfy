/** The user value objects of src/domain/@shared/value-object/user.ts: a contact phone number
    checked against the pattern ^\(\d{2}\) \d{4,5}-\d{4}$, and a CPF document and an e-mail
    address whose validity is decided by third-party validators, passed in as predicates. */
module UserValues {
  import opened Outcomes
  import opened ValueObjects

  /** `\d` in a JavaScript regular expression: an ASCII digit. */
  predicate IsDigit(c: char) {
    '0' <= c <= '9'
  }

  predicate AllDigits(s: string) {
    forall i :: 0 <= i < |s| ==> IsDigit(s[i])
  }

  /** The contact pattern read position by position: "(", two digits, ") ", four or five digits,
      "-", four digits, and nothing else. */
  predicate IsContact(s: string) {
    && (|s| == 14 || |s| == 15)
    && s[0] == '(' && IsDigit(s[1]) && IsDigit(s[2]) && s[3] == ')' && s[4] == ' '
    && AllDigits(s[5..|s| - 5])
    && s[|s| - 5] == '-'
    && AllDigits(s[|s| - 4..])
  }

  /** The phone number assembled from an area code, a local prefix and a line number. */
  function ContactOf(area: string, prefix: string, line: string): string {
    "(" + area + ") " + prefix + "-" + line
  }

  /** Every string of the documented shape is accepted. */
  lemma ContactOfAccepted(area: string, prefix: string, line: string)
    requires |area| == 2 && AllDigits(area)
    requires (|prefix| == 4 || |prefix| == 5) && AllDigits(prefix)
    requires |line| == 4 && AllDigits(line)
    ensures IsContact(ContactOf(area, prefix, line))
  {
    var s := ContactOf(area, prefix, line);
    assert s[1] == area[0] && s[2] == area[1];
    assert s[5..|s| - 5] == prefix;
    assert s[|s| - 4..] == line;
  }

  /** Every accepted string has the documented shape, split at the fixed positions. */
  lemma AcceptedIsContactOf(s: string)
    requires IsContact(s)
    ensures AllDigits(s[1..3]) && AllDigits(s[5..|s| - 5]) && AllDigits(s[|s| - 4..])
    ensures |s[5..|s| - 5]| == 4 || |s[5..|s| - 5]| == 5
    ensures s == ContactOf(s[1..3], s[5..|s| - 5], s[|s| - 4..])
  {
    var area, prefix, line := s[1..3], s[5..|s| - 5], s[|s| - 4..];
    assert AllDigits(area) by {
      assert area[0] == s[1] && area[1] == s[2];
    }
    var t := ContactOf(area, prefix, line);
    assert |t| == |s|;
    forall i | 0 <= i < |s| ensures t[i] == s[i] {
      if i == 0 || i == 3 || i == 4 || i == |s| - 5 {
      } else if i < 3 {
        assert t[i] == area[i - 1];
      } else if i < |s| - 5 {
        assert t[i] == prefix[i - 5];
      } else {
        assert t[i] == line[i - (|s| - 4)];
      }
    }
  }

  /** The malformed numbers: no hyphen, no parentheses, no space, a short prefix, a letter. */
  lemma ContactRejections()
    ensures !IsContact("(47) 988776655")
    ensures !IsContact("47 98877-6655")
    ensures !IsContact("47 988776655")
    ensures !IsContact("(47)98877-6655")
    ensures !IsContact("(47) 877-6655")
    ensures !IsContact("(47) 98877-665x")
  {
    assert "(47) 988776655"[9] != '-';
    assert !IsDigit("(47) 98877-665x"[14]);
  }

  /** A mobile and a landline number in the documented formats. */
  lemma ContactAcceptances()
    ensures IsContact("(47) 98877-6655")
    ensures IsContact("(47) 8877-6655")
  {
    ContactOfAccepted("47", "98877", "6655");
    ContactOfAccepted("47", "8877", "6655");
    assert "(47) 98877-6655" == ContactOf("47", "98877", "6655");
    assert "(47) 8877-6655" == ContactOf("47", "8877", "6655");
  }

  /** `UserContact.validate`. */
  function ContactCheck(s: string): (r: Outcome<ValueError>)
    ensures r.Pass? <==> IsContact(s)
    ensures r.Fail? ==> r.error == InvalidContact
  {
    if IsContact(s) then Pass else Fail(InvalidContact)
  }

  /** `UserDocument.validate`, given the CPF validator of the `cpf-cnpj-validator` library. */
  function DocumentCheck(isCpf: string -> bool, s: string): (r: Outcome<ValueError>)
    ensures r.Pass? <==> isCpf(s)
    ensures r.Fail? ==> r.error == InvalidDocument
  {
    if isCpf(s) then Pass else Fail(InvalidDocument)
  }

  /** `UserEmail.validate`, given the validator of the `email-validator` library. */
  function EmailCheck(isEmail: string -> bool, s: string): (r: Outcome<ValueError>)
    ensures r.Pass? <==> isEmail(s)
    ensures r.Fail? ==> r.error == InvalidEmail
  {
    if isEmail(s) then Pass else Fail(InvalidEmail)
  }

  /** `new UserContact(value)`. */
  method NewUserContact(value: string) returns (r: Result<ValueObject<string, ValueError>, ValueError>)
    ensures r.Ok? <==> IsContact(value)
    ensures r.Err? ==> r.error == InvalidContact
    ensures r.Ok? ==> fresh(r.value) && r.value.value == value
  {
    r := New(value, ContactCheck);
  }

  /** `new UserDocument(value)`. */
  method NewUserDocument(isCpf: string -> bool, value: string)
    returns (r: Result<ValueObject<string, ValueError>, ValueError>)
    ensures r.Ok? <==> isCpf(value)
    ensures r.Err? ==> r.error == InvalidDocument
    ensures r.Ok? ==> fresh(r.value) && r.value.value == value
  {
    r := New(value, s => DocumentCheck(isCpf, s));
  }

  /** `new UserEmail(value)`. */
  method NewUserEmail(isEmail: string -> bool, value: string)
    returns (r: Result<ValueObject<string, ValueError>, ValueError>)
    ensures r.Ok? <==> isEmail(value)
    ensures r.Err? ==> r.error == InvalidEmail
    ensures r.Ok? ==> fresh(r.value) && r.value.value == value
  {
    r := New(value, s => EmailCheck(isEmail, s));
  }
}
