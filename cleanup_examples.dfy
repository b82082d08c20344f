/** Worked examples of the transaction-text cleanup. */
module CleanupExamples {
  import opened JsText
  import opened TransactionText

  lemma CleanStarExampleLowered()
    ensures ToLowerCase("Foo*Bar") == "foo*bar"
  {
    var lowered := ToLowerCase("Foo*Bar");
    assert LowerChar('B') == 'b';
    assert LowerChar('F') == 'f';
    assert lowered[0] == 'f'
      && lowered[1] == 'o'
      && lowered[2] == 'o'
      && lowered[3] == '*'
      && lowered[4] == 'b'
      && lowered[5] == 'a'
      && lowered[6] == 'r';
  }

  lemma CleanStarExampleStripped()
    ensures StripNoise("foo*bar") == "foobar"
  {
    assert StripNoise("r") == "r" by {
      assert MatchAt("r") == 0;
      assert "r"[1..] == "";
    }
    assert StripNoise("ar") == "ar" by {
      assert MatchAt("ar") == 0;
      assert "ar"[1..] == "r";
    }
    assert StripNoise("bar") == "bar" by {
      assert MatchAt("bar") == 0;
      assert "bar"[1..] == "ar";
    }
    assert StripNoise("*bar") == "bar" by {
      assert MatchAt("*bar") == 1;
      assert "*bar"[1..] == "bar";
    }
    assert StripNoise("o*bar") == "obar" by {
      assert MatchAt("o*bar") == 0;
      assert "o*bar"[1..] == "*bar";
    }
    assert StripNoise("oo*bar") == "oobar" by {
      assert MatchAt("oo*bar") == 0;
      assert "oo*bar"[1..] == "o*bar";
    }
    assert StripNoise("foo*bar") == "foobar" by {
      assert MatchAt("foo*bar") == 0;
      assert "foo*bar"[1..] == "oo*bar";
    }
  }

  lemma CleanStarExampleTrimmed()
    ensures Trim("foobar") == "foobar"
  {
    var s := "foobar";
    assert !IsWhiteSpace(s[0]) && !IsWhiteSpace(s[|s| - 1]);
    TrimEnds(s);
  }

  lemma CleanStarExampleCapitalized()
    ensures CapitalizeFirst("foobar") == "Foobar"
  {
    assert UpperChar('f') == "F";
    assert "foobar"[1..] == "oobar";
  }

  /** A '*' is removed without leaving a space, and only the first letter stays upper-case. */
  lemma CleanStarExample()
    ensures CleanText("Foo*Bar") == "Foobar"
  {
    calc {
      CleanText("Foo*Bar");
      CapitalizeFirst(Trim(StripNoise(ToLowerCase("Foo*Bar"))));
      { CleanStarExampleLowered(); }
      CapitalizeFirst(Trim(StripNoise("foo*bar")));
      { CleanStarExampleStripped(); }
      CapitalizeFirst(Trim("foobar"));
      { CleanStarExampleTrimmed(); }
      CapitalizeFirst("foobar");
      { CleanStarExampleCapitalized(); }
      "Foobar";
    }
  }

  lemma CleanLeadingNokExampleLowered()
    ensures ToLowerCase("NOK 5") == "nok 5"
  {
    var lowered := ToLowerCase("NOK 5");
    assert LowerChar('K') == 'k';
    assert LowerChar('N') == 'n';
    assert LowerChar('O') == 'o';
    assert lowered[0] == 'n'
      && lowered[1] == 'o'
      && lowered[2] == 'k'
      && lowered[3] == ' '
      && lowered[4] == '5';
  }

  lemma CleanLeadingNokExampleStripped()
    ensures StripNoise("nok 5") == "nok "
  {
    assert StripNoise("5") == "" by {
      assert MatchAt("5") == 1;
      assert "5"[1..] == "";
    }
    assert StripNoise(" 5") == " " by {
      assert MatchAt(" 5") == 0;
      assert " 5"[1..] == "5";
    }
    assert StripNoise("k 5") == "k " by {
      assert MatchAt("k 5") == 0;
      assert "k 5"[1..] == " 5";
    }
    assert StripNoise("ok 5") == "ok " by {
      assert MatchAt("ok 5") == 0;
      assert "ok 5"[1..] == "k 5";
    }
    assert StripNoise("nok 5") == "nok " by {
      assert MatchAt("nok 5") == 0;
      assert "nok 5"[1..] == "ok 5";
    }
  }

  lemma CleanLeadingNokExampleTrimmed()
    ensures Trim("nok ") == "nok"
  {
    var s := "nok ";
    assert TrimStart(s) == s by { assert !IsWhiteSpace(s[0]); }
    assert s[..|s| - 1] == "nok";
    var t := "nok";
    assert TrimEnd(t) == t by { assert !IsWhiteSpace(t[|t| - 1]); }
  }

  lemma CleanLeadingNokExampleCapitalized()
    ensures CapitalizeFirst("nok") == "Nok"
  {
    assert UpperChar('n') == "N";
    assert "nok"[1..] == "ok";
  }

  /** A leading "NOK" survives: the currency alternative needs a space on both sides. */
  lemma CleanLeadingNokExample()
    ensures CleanText("NOK 5") == "Nok"
  {
    calc {
      CleanText("NOK 5");
      CapitalizeFirst(Trim(StripNoise(ToLowerCase("NOK 5"))));
      { CleanLeadingNokExampleLowered(); }
      CapitalizeFirst(Trim(StripNoise("nok 5")));
      { CleanLeadingNokExampleStripped(); }
      CapitalizeFirst(Trim("nok "));
      { CleanLeadingNokExampleTrimmed(); }
      CapitalizeFirst("nok");
      { CleanLeadingNokExampleCapitalized(); }
      "Nok";
    }
  }

  /** Lowered word by word: the name, then the currency and the amount. */
  lemma CleanInnerNokExampleLowered()
    ensures ToLowerCase("Kiwi NOK 5") == "kiwi nok 5"
  {
    assert "Kiwi NOK 5" == "Kiwi" + " NOK 5";
    ToLowerCaseAppend("Kiwi", " NOK 5");
    assert ToLowerCase("Kiwi") == "kiwi" by {
      var lowered := ToLowerCase("Kiwi");
      assert LowerChar('K') == 'k';
      assert lowered[0] == 'k' && lowered[1] == 'i' && lowered[2] == 'w' && lowered[3] == 'i';
    }
    assert ToLowerCase(" NOK 5") == " nok 5" by {
      var lowered := ToLowerCase(" NOK 5");
      assert LowerChar('N') == 'n';
      assert LowerChar('O') == 'o';
      assert LowerChar('K') == 'k';
      assert lowered[0] == ' ' && lowered[1] == 'n' && lowered[2] == 'o' && lowered[3] == 'k'
        && lowered[4] == ' ' && lowered[5] == '5';
    }
    assert "kiwi" + " nok 5" == "kiwi nok 5";
  }

  lemma CleanInnerNokExampleStripped()
    ensures StripNoise("kiwi nok 5") == "kiwi"
  {
    assert StripNoise("5") == "" by {
      assert MatchAt("5") == 1;
      assert "5"[1..] == "";
    }
    assert StripNoise(" nok 5") == "" by {
      assert " nok 5"[0] == ' ' && " nok 5"[1] == 'n' && " nok 5"[2] == 'o' && " nok 5"[3] == 'k' && " nok 5"[4] == ' ';
      assert MatchAt(" nok 5") == 5;
      assert " nok 5"[5..] == "5";
    }
    assert StripNoise("i nok 5") == "i" by {
      assert MatchAt("i nok 5") == 0;
      assert "i nok 5"[1..] == " nok 5";
    }
    assert StripNoise("wi nok 5") == "wi" by {
      assert MatchAt("wi nok 5") == 0;
      assert "wi nok 5"[1..] == "i nok 5";
    }
    assert StripNoise("iwi nok 5") == "iwi" by {
      assert MatchAt("iwi nok 5") == 0;
      assert "iwi nok 5"[1..] == "wi nok 5";
    }
    assert StripNoise("kiwi nok 5") == "kiwi" by {
      assert MatchAt("kiwi nok 5") == 0;
      assert "kiwi nok 5"[1..] == "iwi nok 5";
    }
  }

  lemma CleanInnerNokExampleTrimmed()
    ensures Trim("kiwi") == "kiwi"
  {
    var s := "kiwi";
    assert !IsWhiteSpace(s[0]) && !IsWhiteSpace(s[|s| - 1]);
    TrimEnds(s);
  }

  lemma CleanInnerNokExampleCapitalized()
    ensures CapitalizeFirst("kiwi") == "Kiwi"
  {
    assert UpperChar('k') == "K";
    assert "kiwi"[1..] == "iwi";
  }

  /** " NOK " between spaces is removed together with both spaces. */
  lemma CleanInnerNokExample()
    ensures CleanText("Kiwi NOK 5") == "Kiwi"
  {
    calc {
      CleanText("Kiwi NOK 5");
      CapitalizeFirst(Trim(StripNoise(ToLowerCase("Kiwi NOK 5"))));
      { CleanInnerNokExampleLowered(); }
      CapitalizeFirst(Trim(StripNoise("kiwi nok 5")));
      { CleanInnerNokExampleStripped(); }
      CapitalizeFirst(Trim("kiwi"));
      { CleanInnerNokExampleTrimmed(); }
      CapitalizeFirst("kiwi");
      { CleanInnerNokExampleCapitalized(); }
      "Kiwi";
    }
  }
}
