/**
 * The reader's behaviour on the inputs of the JSON reader's "Reading" test,
 * each stated as a lemma about the model.
 */
module JsonReaderVectors {
  import opened JsonReader

  /** A lone `0` and plain integers in 32-bit range are read as integers. */
  lemma IntegersAreIntegers()
    ensures JsonToValue("43", false, false) == Ok(Integer(43))
    ensures JsonToValue("0", false, false) == Ok(Integer(0))
  {
    assert "43"[0..2] == "43";
    assert "43"[2..2] == "";
    assert "43"[2..] == "";
    assert RfcSplit("43", 0, 2, 2);
    NumberDocument("43", false);
    assert DigitsValue("4") == 4;
    assert DigitsValue("43") == 43;
    assert "0"[0..1] == "0";
    assert "0"[1..1] == "";
    assert "0"[1..] == "";
    assert RfcSplit("0", 0, 1, 1);
    NumberDocument("0", false);
    assert DigitsValue("0") == 0;
  }

  /** The first four digits of the 32-bit boundary. */
  lemma LeadingDigits()
    ensures DigitsValue("2147") == 2147
  {
    assert DigitsValue("2") == 2;
    assert "21"[..1] == "2";
    assert DigitsValue("21") == 21;
    assert "214"[..2] == "21";
    assert DigitsValue("214") == 214;
    assert "2147"[..3] == "214";
  }

  /** The first nine digits of the 32-bit boundary. */
  lemma BoundaryPrefixDigits()
    ensures DigitsValue("214748364") == 214748364
  {
    LeadingDigits();
    assert "21474"[..4] == "2147";
    assert DigitsValue("21474") == 21474;
    assert "214748"[..5] == "21474";
    assert DigitsValue("214748") == 214748;
    assert "2147483"[..6] == "214748";
    assert DigitsValue("2147483") == 2147483;
    assert "21474836"[..7] == "2147483";
    assert DigitsValue("21474836") == 21474836;
    assert "214748364"[..8] == "21474836";
  }

  /** The digits of the boundary literals have the values their text says. */
  lemma BoundaryDigits()
    ensures DigitsValue("2147483648") == 2147483648
    ensures DigitsValue("2147483649") == 2147483649
  {
    BoundaryPrefixDigits();
    assert "2147483648"[..9] == "214748364";
    assert "2147483649"[..9] == "214748364";
  }

  /** An integer just above the 32-bit range is read as a double. */
  lemma TooLargeIntegerIsDouble()
    ensures JsonToValue("2147483648", false, false) == Ok(Double("2147483648"))
  {
    assert "2147483648"[0..10] == "2147483648";
    assert "2147483648"[10..10] == "";
    assert "2147483648"[10..] == "";
    assert RfcSplit("2147483648", 0, 10, 10);
    NumberDocument("2147483648", false);
    BoundaryDigits();
  }

  /** An integer just below the 32-bit range is read as a double. */
  lemma TooSmallIntegerIsDouble()
    ensures JsonToValue("-2147483649", false, false) == Ok(Double("-2147483649"))
  {
    assert "-2147483649"[1..11] == "2147483649";
    assert "-2147483649"[11..11] == "";
    assert "-2147483649"[11..] == "";
    assert RfcSplit("-2147483649", 1, 11, 11);
    NumberDocument("-2147483649", false);
    BoundaryDigits();
    assert "-2147483649"[1..] == "2147483649";
    assert IntegerLiteralValue("-2147483649") == -2147483649;
    assert DecodeNumber("-2147483649") == Double("-2147483649");
  }

  /** A literal with a fraction is read as a double. */
  lemma FractionIsDouble()
    ensures JsonToValue("43.1", false, false) == Ok(Double("43.1"))
  {
    assert "43.1"[0..2] == "43";
    assert "43.1"[2..4] == ".1";
    assert ".1"[1..] == "1";
    assert "43.1"[4..] == "";
    assert RfcSplit("43.1", 0, 2, 4);
    NumberDocument("43.1", false);
  }

  /** A fraction after a lone `0` is read as a double. */
  lemma SmallFractionIsDouble()
    ensures JsonToValue("0.01", false, false) == Ok(Double("0.01"))
  {
    assert "0.01"[0..1] == "0";
    assert "0.01"[1..4] == ".01";
    assert ".01"[1..] == "01";
    assert "0.01"[4..] == "";
    assert RfcSplit("0.01", 0, 1, 4);
    NumberDocument("0.01", false);
  }

  /** A literal with an all-zero fraction is still read as a double. */
  lemma ZeroFractionIsDouble()
    ensures JsonToValue("1.00", false, false) == Ok(Double("1.00"))
  {
    assert "1.00"[0..1] == "1";
    assert "1.00"[1..4] == ".00";
    assert ".00"[1..] == "00";
    assert "1.00"[4..] == "";
    assert RfcSplit("1.00", 0, 1, 4);
    NumberDocument("1.00", false);
  }

  /** A literal with an exponent is read as a double. */
  lemma NegativeExponentIsDouble()
    ensures JsonToValue("4.3e-1", false, false) == Ok(Double("4.3e-1"))
  {
    assert "4.3e-1"[0..1] == "4";
    assert "4.3e-1"[1..3] == ".3";
    assert ".3"[1..] == "3";
    assert "4.3e-1"[3..] == "e-1";
    assert "e-1"[2..] == "1";
    assert RfcSplit("4.3e-1", 0, 1, 3);
    NumberDocument("4.3e-1", false);
  }

  /** A literal with an exponent is read as a double. */
  lemma ZeroExponentIsDouble()
    ensures JsonToValue("2.1e0", false, false) == Ok(Double("2.1e0"))
  {
    assert "2.1e0"[0..1] == "2";
    assert "2.1e0"[1..3] == ".1";
    assert ".1"[1..] == "1";
    assert "2.1e0"[3..] == "e0";
    assert "e0"[1..] == "0";
    assert RfcSplit("2.1e0", 0, 1, 3);
    NumberDocument("2.1e0", false);
  }

  /** A literal with an exponent is read as a double. */
  lemma SignedExponentIsDouble()
    ensures JsonToValue("2.1e+0001", false, false) == Ok(Double("2.1e+0001"))
  {
    assert "2.1e+0001"[0..1] == "2";
    assert "2.1e+0001"[1..3] == ".1";
    assert ".1"[1..] == "1";
    assert "2.1e+0001"[3..] == "e+0001";
    assert "e+0001"[2..] == "0001";
    assert RfcSplit("2.1e+0001", 0, 1, 3);
    NumberDocument("2.1e+0001", false);
  }
}
