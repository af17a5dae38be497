/** What parseFloat reads from the label and table amounts that the
    worked cases of VitaminDataProperties use. Each digit string's value
    is its own small lemma so that no proof below evaluates both
    DigitsValue and ParseFloat on literals at once. */
module LabelReadings {
  import opened Wrappers
  import opened JsNumber

  lemma Digits90()
    ensures AllDigits("90") && DigitsValue("90") == 90
  {
    assert "90"[..1] == "9" && "9"[..0] == "";
  }

  lemma Reads90mg()
    ensures ParseFloat("90 mg") == Some(90.0)
  {
    Digits90();
    ParseWholeAmount("90 mg", "90", " mg", 90);
  }

  lemma Digits75()
    ensures AllDigits("75") && DigitsValue("75") == 75
  {
    assert "75"[..1] == "7" && "7"[..0] == "";
  }

  lemma Reads75mg()
    ensures ParseFloat("75 mg") == Some(75.0)
  {
    Digits75();
    ParseWholeAmount("75 mg", "75", " mg", 75);
  }

  lemma Digits2000()
    ensures AllDigits("2000") && DigitsValue("2000") == 2000
  {
    assert "2000"[..3] == "200" && "200"[..2] == "20" && "20"[..1] == "2" && "2"[..0] == "";
  }

  lemma Reads2000mg()
    ensures ParseFloat("2000 mg") == Some(2000.0)
  {
    Digits2000();
    ParseWholeAmount("2000 mg", "2000", " mg", 2000);
  }

  lemma Digits0()
    ensures AllDigits("0") && DigitsValue("0") == 0
  {
    assert "0"[..0] == "";
  }

  lemma Reads0IU()
    ensures ParseFloat("0 IU") == Some(0.0)
  {
    Digits0();
    ParseWholeAmount("0 IU", "0", " IU", 0);
  }

  lemma Digits40()
    ensures AllDigits("40") && DigitsValue("40") == 40
  {
    assert "40"[..1] == "4" && "4"[..0] == "";
  }

  lemma Reads40mg()
    ensures ParseFloat("40 mg") == Some(40.0)
  {
    Digits40();
    ParseWholeAmount("40 mg", "40", " mg", 40);
  }

  lemma Digits35()
    ensures AllDigits("35") && DigitsValue("35") == 35
  {
    assert "35"[..1] == "3" && "3"[..0] == "";
  }

  lemma Reads35mg()
    ensures ParseFloat("35 mg") == Some(35.0)
  {
    Digits35();
    ParseWholeAmount("35 mg", "35", " mg", 35);
  }

  lemma Digits3500()
    ensures AllDigits("3500") && DigitsValue("3500") == 3500
  {
    assert "3500"[..3] == "350" && "350"[..2] == "35" && "35"[..1] == "3" && "3"[..0] == "";
  }

  lemma Reads3500IU()
    ensures ParseFloat("3500 IU") == Some(3500.0)
  {
    Digits3500();
    ParseWholeAmount("3500 IU", "3500", " IU", 3500);
  }

  lemma Digits3000()
    ensures AllDigits("3000") && DigitsValue("3000") == 3000
  {
    assert "3000"[..3] == "300" && "300"[..2] == "30" && "30"[..1] == "3" && "3"[..0] == "";
  }

  lemma Reads3000mcg()
    ensures ParseFloat("3000 mcg") == Some(3000.0)
  {
    Digits3000();
    ParseWholeAmount("3000 mcg", "3000", " mcg", 3000);
  }

  lemma Digits2333()
    ensures AllDigits("2333") && DigitsValue("2333") == 2333
  {
    assert "2333"[..3] == "233" && "233"[..2] == "23" && "23"[..1] == "2" && "2"[..0] == "";
  }

  lemma Reads2333IU()
    ensures ParseFloat("2333 IU") == Some(2333.0)
  {
    Digits2333();
    ParseWholeAmount("2333 IU", "2333", " IU", 2333);
  }

  lemma Digits700()
    ensures AllDigits("700") && DigitsValue("700") == 700
  {
    assert "700"[..2] == "70" && "70"[..1] == "7" && "7"[..0] == "";
  }

  lemma Reads700mcg()
    ensures ParseFloat("700 mcg") == Some(700.0)
  {
    Digits700();
    ParseWholeAmount("700 mcg", "700", " mcg", 700);
  }

  lemma Digits900()
    ensures AllDigits("900") && DigitsValue("900") == 900
  {
    assert "900"[..2] == "90" && "90"[..1] == "9" && "9"[..0] == "";
  }

  lemma Reads900mcg()
    ensures ParseFloat("900 mcg") == Some(900.0)
  {
    Digits900();
    ParseWholeAmount("900 mcg", "900", " mcg", 900);
  }

  lemma Digits350()
    ensures AllDigits("350") && DigitsValue("350") == 350
  {
    assert "350"[..2] == "35" && "35"[..1] == "3" && "3"[..0] == "";
  }

  lemma Reads350mg()
    ensures ParseFloat("350 mg") == Some(350.0)
  {
    Digits350();
    ParseWholeAmount("350 mg", "350", " mg", 350);
  }

  lemma Digits1()
    ensures AllDigits("1") && DigitsValue("1") == 1
  {
    assert "1"[..0] == "";
  }

  lemma Frac1()
    ensures AllDigits("1") && FracValue("1") == 0.1
  {
    assert "1"[1..] == "";
  }

  lemma Frac2()
    ensures AllDigits("2") && FracValue("2") == 0.2
  {
    assert "2"[1..] == "";
  }

  lemma Frac5()
    ensures AllDigits("5") && FracValue("5") == 0.5
  {
    assert "5"[1..] == "";
  }

  lemma Spell1_5mg()
    ensures "1" + "." + "5" + " mg" == "1.5 mg"
  {
  }

  lemma Reads1_5mg()
    ensures ParseFloat("1.5 mg") == Some(1.5)
  {
    Spell1_5mg();
    Digits1();
    Frac5();
    ParseDecimal("1", "5", " mg");
  }

  lemma Spell1_1mg()
    ensures "1" + "." + "1" + " mg" == "1.1 mg"
  {
  }

  lemma Reads1_1mg()
    ensures ParseFloat("1.1 mg") == Some(1.1)
  {
    Spell1_1mg();
    Digits1();
    Frac1();
    ParseDecimal("1", "1", " mg");
  }

  lemma Spell1_2mg()
    ensures "1" + "." + "2" + " mg" == "1.2 mg"
  {
  }

  lemma Reads1_2mg()
    ensures ParseFloat("1.2 mg") == Some(1.2)
  {
    Spell1_2mg();
    Digits1();
    Frac2();
    ParseDecimal("1", "2", " mg");
  }
}
