/** The client address value object of src/domain/value-object/client.ts: a CEP (Brazilian
    postal code) checked against ^\d{5}-\d{3}$, a house number and an optional complement. */
module ClientAddresses {
  import opened Outcomes
  import opened ValueObjects
  import opened UserValues

  datatype Address = Address(cep: string, number: real, complement: Option<string>)

  /** The CEP pattern read position by position: five digits, "-", three digits. */
  predicate IsCep(s: string) {
    |s| == 9 && AllDigits(s[..5]) && s[5] == '-' && AllDigits(s[6..])
  }

  /** Every CEP is five digits, a hyphen and three digits, and every such string is a CEP. */
  lemma CepShape(head: string, tail: string)
    ensures IsCep(head + "-" + tail) <==> |head| == 5 && AllDigits(head) && |tail| == 3 && AllDigits(tail)
  {
    var s := head + "-" + tail;
    assert s[|head|] == '-';
    if IsCep(s) {
      HyphenOnlyAtFive(s);
    }
    if |head| == 5 && |tail| == 3 {
      assert s[..5] == head;
      assert s[6..] == tail;
    }
  }

  lemma HyphenOnlyAtFive(s: string)
    requires IsCep(s)
    ensures forall i :: 0 <= i < |s| && s[i] == '-' ==> i == 5
  {
    forall i | 0 <= i < |s| && i != 5
      ensures s[i] != '-'
    {
      if i < 5 {
        assert s[..5][i] == s[i];
      } else {
        assert s[6..][i - 6] == s[i];
      }
    }
  }

  lemma CepExamples()
    ensures !IsCep("12345678") && !IsCep("12345-67x") && !IsCep("abcde-fgh")
    ensures IsCep("12345-678")
  {
    assert !IsDigit("12345-67x"[8]);
    assert !IsDigit("abcde-fgh"[0]);
    assert "12345-678"[..5] == "12345";
    assert "12345-678"[6..] == "678";
  }

  /** `ClientAddress.validate`: only the CEP is checked. */
  function AddressCheck(a: Address): (r: Outcome<ValueError>)
    ensures r.Pass? <==> IsCep(a.cep)
    ensures r.Fail? ==> r.error == InvalidCep
  {
    if IsCep(a.cep) then Pass else Fail(InvalidCep)
  }

  /** The number and the complement never affect validity. */
  lemma OnlyCepIsChecked(a: Address, number: real, complement: Option<string>)
    ensures AddressCheck(a) == AddressCheck(Address(a.cep, number, complement))
  {
  }

  /** `new ClientAddress(cep, number, complement)`. */
  method NewClientAddress(cep: string, number: real, complement: Option<string>)
    returns (r: Result<ValueObject<Address, ValueError>, ValueError>)
    ensures r.Ok? <==> IsCep(cep)
    ensures r.Err? ==> r.error == InvalidCep
    ensures r.Ok? ==> fresh(r.value) && r.value.value == Address(cep, number, complement)
  {
    r := New(Address(cep, number, complement), AddressCheck);
  }
}
