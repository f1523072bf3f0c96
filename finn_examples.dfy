/** Worked examples of the Finn scraper's parsing rules on concrete inputs. */
module FinnExamples {
  import opened Wrappers
  import opened JsText
  import opened PageInput
  import opened Types
  import opened Cascade
  import opened Finn

  /** A string price goes through `parseInt`: a sign is kept. */
  lemma LdPriceNegative()
    ensures LdPrice(JsonString("-5")) == Num(-5)
  {
    var s := "-5";
    assert !IsSpace(s[0]);
    assert TrimStart(s) == s;
    assert s[1..] == "5";
    assert DigitPrefix("5") == "5" by { DigitsArePrefix("5"); }
    assert DigitValue("5") == 5 by { assert "5"[..0] == ""; }
  }

  /** A string price that does not start with a number parses to `NaN`, which is
      falsy, so a later layer may still fill the price. */
  lemma LdPriceText()
    ensures LdPrice(JsonString("kr 100")) == NaN
    ensures !LdPrice(JsonString("kr 100")).Truthy()
  {
    var s := "kr 100";
    assert !IsSpace(s[0]);
    assert TrimStart(s) == s;
    assert DigitPrefix(s) == "";
  }

  lemma RemoveSpacesTail()
    ensures RemoveSpaces("500,-") == "500,-"
  {
    VisibleAsciiIsNotSpace();
    assert RemoveSpaces("-") == "-" by { assert "-"[1..] == ""; }
    assert RemoveSpaces(",-") == ",-" by { assert ",-"[1..] == "-"; }
    assert RemoveSpaces("0,-") == "0,-" by { assert "0,-"[1..] == ",-"; }
    assert RemoveSpaces("00,-") == "00,-" by { assert "00,-"[1..] == "0,-"; }
    assert "500,-"[1..] == "00,-";
  }

  lemma RemoveSpacesMiddle()
    ensures RemoveSpaces(" 1 500,-") == "1500,-"
  {
    VisibleAsciiIsNotSpace();
    RemoveSpacesTail();
    assert RemoveSpaces(" 500,-") == "500,-" by { assert " 500,-"[1..] == "500,-"; }
    assert RemoveSpaces("1 500,-") == "1500,-" by { assert "1 500,-"[1..] == " 500,-"; }
    assert " 1 500,-"[1..] == "1 500,-";
  }

  lemma RemoveSpacesExample()
    ensures RemoveSpaces("kr 1 500,-") == "kr1500,-"
  {
    VisibleAsciiIsNotSpace();
    RemoveSpacesMiddle();
    assert RemoveSpaces("r 1 500,-") == "r1500,-" by { assert "r 1 500,-"[1..] == " 1 500,-"; }
    assert "kr 1 500,-"[1..] == "r 1 500,-";
  }

  lemma DigitPrefixExample()
    ensures DigitPrefix("1500,-") == "1500"
  {
    assert DigitPrefix("0,-") == "0" by { assert "0,-"[1..] == ",-"; }
    assert DigitPrefix("00,-") == "00" by { assert "00,-"[1..] == "0,-"; }
    assert DigitPrefix("500,-") == "500" by { assert "500,-"[1..] == "00,-"; }
    assert "1500,-"[1..] == "500,-";
  }

  lemma DigitRunExample()
    ensures FirstDigitRun("kr1500,-") == Some("1500")
  {
    var stripped := "kr1500,-";
    assert FirstDigitIndex(stripped) == 2 by {
      assert stripped[1..] == "r1500,-";
      assert stripped[1..][1..] == "1500,-";
    }
    assert stripped[2..] == "1500,-";
    DigitPrefixExample();
  }

  lemma DigitValueExample()
    ensures DigitValue("1500") == 1500
  {
    assert DigitValue("15") == 15 by {
      assert "15"[..1] == "1";
      assert "1"[..0] == "";
    }
    assert "1500"[..3] == "150";
    assert "150"[..2] == "15";
  }

  /** `"kr 1 500,-"` reads as 1500 once the spaces are gone. */
  lemma DigitScanExample()
    ensures DigitScan("kr 1 500,-") == Some(1500)
  {
    RemoveSpacesExample();
    DigitRunExample();
    DigitValueExample();
  }

  /** The id of an item URL with a query string. */
  lemma AdIdItemExample()
    ensures AdId("/item/42?x") == "42"
  {
    var url := "/item/42?x";
    assert IdAt(url, 0).None? by {
      assert url[0..] == url;
      assert url[..9][0] == '/' && url[..5][0] == '/' && !IsDigit(url[1]);
    }
    assert IdAt(url, 1) == Some("42") by {
      var rest := url[1..];
      assert rest == "item/42?x";
      assert rest[..5] == "item/";
      assert rest[5..] == "42?x";
      assert DigitPrefix("42?x") == "42" by {
        assert "42?x"[1..] == "2?x";
        assert "2?x"[1..] == "?x";
      }
    }
    assert MatchStart(url, 0) == 1;
  }
}
