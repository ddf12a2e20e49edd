/** Worked examples: concrete inputs and what the model gives for them. */
module Scenarios {
  import opened Wrappers
  import opened JsText
  import opened VtexEmail
  import opened OrderStatus
  import opened OrderRemap
  import opened OrderCancel

  // The cleaner's examples take the address as a parameter fixed by their
  // requires clause, which keeps the verifier from unfolding the splitting
  // functions on a literal string.

  /** The tenant suffix goes. */
  lemma CleanEmailStripsSuffix(s: string)
    requires s == "ana@mail.com-cl"
    ensures CleanEmail(Some(s)) == Some("ana@mail.com")
  {
    assert s[..3] == "ana";
    IndexOfUnique(s, '@', 3);
    assert s[4..12] == "mail.com";
    assert CutsAtStop(s, 12) by {
      forall k | 3 < k < 12 ensures !IsStop(s[k]) {
        assert s[k] == s[4..12][k - 4];
      }
    }
    CleanEmailAt(s, 12);
    assert s[..12] == "ana@mail.com";
  }

  /** An address without a suffix is kept as it is. */
  lemma CleanEmailKeepsPlainAddress(s: string)
    requires s == "ana@mail.cl"
    ensures CleanEmail(Some(s)) == Some(s)
  {
    IndexOfUnique(s, '@', 3);
    assert CutsAtStop(s, 11);
    CleanEmailAt(s, 11);
    assert s[..11] == s;
  }

  /** Whatever follows a second '@' is dropped. */
  lemma CleanEmailDropsAfterSecondAt(s: string)
    requires s == "a@b.cl@c.cl"
    ensures CleanEmail(Some(s)) == Some("a@b.cl")
  {
    IndexOfUnique(s, '@', 1);
    assert CutsAtStop(s, 6);
    CleanEmailAt(s, 6);
    assert s[..6] == "a@b.cl";
  }

  /** Text without '@' is returned unchanged. */
  lemma CleanEmailWithoutAt(s: string)
    requires s == "not-an-email"
    ensures CleanEmail(Some(s)) == Some(s)
  {
  }

  lemma ClassifyExamples()
    ensures Classify(Some("invoiced")) == Entregado
    ensures Classify(Some("handling")) == Procesando
    ensures Classify(Some("unknown-xyz")) == Enviado
    ensures Classify(Some("")) == Enviado
    ensures Classify(None) == Enviado
  {
  }

  const Mouse := VendorItem(Some("Mouse"), Some(1), Some(2500000))

  const AnaProfile := ClientProfile(Some("Ana"), Some("Martinez"), Some("ana@mail.com-cl"),
                                    Some("+56987654321"), Some("12.345.678-9"))

  const AnaAddress := Address(Some("Av Siempre Viva"), Some("742"), Some("Providencia"), None, Some("7500000"))

  const AnaOrder := VendorOrderDetail(
    Some("O1"), Some("2024-05-10T10:30:00Z"), Some(4550000),
    Some("delivered"), Some("Delivered to customer"),
    Some([Mouse]), Some(AnaProfile), Some(ShippingData(Some(AnaAddress))))

  lemma AnaName()
    ensures FullName(AnaProfile) == "Ana Martinez"
  {
    FullNameCases(AnaProfile);
  }

  lemma AnaStreet()
    ensures Street(AnaAddress) == "Av Siempre Viva, 742"
  {
    StreetCases(AnaAddress);
  }

  /** A complete vendor detail and the record the detail window receives. */
  lemma RemapAnaOrder()
    ensures Remap(AnaOrder) == LocalOrder(
      Some("O1"), "Ana Martinez", Some("2024-05-10T10:30:00Z"), Some(45500.0),
      Entregado, [LocalItem(Some("Mouse"), Some(1), Some(25000.0))],
      ContactDetails(Some("ana@mail.com"), Some("+56987654321"), Some("12.345.678-9")),
      ShippingDetails("Providencia", "Av Siempre Viva, 742", Some("7500000")))
  {
    var r := Remap(AnaOrder);
    assert r.cliente == "Ana Martinez" by { AnaName(); }
    assert r.shippingDetails.calle == "Av Siempre Viva, 742" by { AnaStreet(); }
    assert r.contactDetails.email == Some("ana@mail.com") by {
      CleanEmailStripsSuffix(AnaProfile.email.value);
    }
    assert r.items == [LocalItem(Some("Mouse"), Some(1), Some(25000.0))] by {
      assert RemapItems([Mouse]) == [RemapItem(Mouse)];
    }
  }

  lemma CancelSuccessExamples()
    ensures CancelDecision(Returned(204, None, None)) == Success
    ensures CancelDecision(Returned(200, Some("OK"), Some(Body(None, None)))) == Success
  {
  }

  lemma CancelVendorMessageExample()
    ensures CancelDecision(Returned(422, None, Some(Body(None, Some(ErrorField(Some("Order already shipped")))))))
      == Failure("API: Order already shipped")
  {
  }

  lemma CancelHttpFallbackExample()
    ensures CancelDecision(Returned(500, None, None)) ==
      Failure(ApiPrefix + "Error HTTP " + "500" + ": " + UnknownStatusText)
  {
  }

  lemma CancelThrownExamples()
    ensures CancelDecision(Thrown(None, Some("timeout"))) == Failure(ThrownPrefix + "timeout")
    ensures CancelDecision(Thrown(Some(Some(Body(None, None))), Some("timeout")))
      == Failure(ThrownPrefix + UnknownCancelError)
  {
  }
}
