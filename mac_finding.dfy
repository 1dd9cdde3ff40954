/**
 * check_mac_address (src/sql.c:26-49) is meant to accept the format
 * "ff:ff:ff:ff:ff:ff", but its loop checks four `:hh` groups, not five, and
 * its length test has no upper bound. add_node writes the MAC address into
 * the INSERT statement unescaped, so a quote at index 14 passes the check and
 * ends the quoted MAC token early. This module shows that input and gives the
 * check that accepts exactly the documented format.
 */
module MacFinding {
  import opened Wrappers
  import opened CText
  import opened Sql
  import opened SqlReader

  /** The documented format: exactly 17 characters, a hex pair and five `:hh` groups. */
  predicate MacWellFormed(str: Option<CString>)
  {
    && str.Some?
    && |str.value| == 17
    && IsXDigit(str.value[0]) && IsXDigit(str.value[1])
    && forall g :: 0 <= g < 5 ==> ColonGroupOk(str.value, g)
  }

  /** The corrected check: exact length, and the loop runs over i = 2, 5, 8, 11, 14. */
  method CheckMacAddressStrict(str: Option<CString>) returns (ok: bool)
    ensures ok <==> MacWellFormed(str)
  {
    if str.None? {
      return false;
    }
    var s := str.value;
    if |s| != 17 {
      return false;
    }
    if !IsXDigit(s[0]) || !IsXDigit(s[1]) {
      return false;
    }
    var i := 2;
    ghost var g := 0;
    while i < 17
      invariant i == 3 * g + 2 && 0 <= g <= 5
      invariant forall h :: 0 <= h < g ==> ColonGroupOk(s, h)
    {
      if s[i] != ':' || !IsXDigit(s[i + 1]) || !IsXDigit(s[i + 2]) {
        assert !ColonGroupOk(s, g);
        return false;
      }
      i := i + 3;
      g := g + 1;
    }
    return true;
  }

  /** Every address the corrected check accepts, the as-written check accepts too. */
  lemma WellFormedMacIsAccepted(str: Option<CString>)
    requires MacWellFormed(str)
    ensures MacAccepted(str)
  {
  }

  /** A well-formed address is made of hex digits and colons only, so it holds no quote. */
  lemma WellFormedMacHasNoQuote(s: CString)
    requires MacWellFormed(Some(s))
    ensures '"' !in s
  {
    forall k | 0 <= k < 17
      ensures s[k] != '"'
    {
      if k >= 2 {
        var g := (k - 2) / 3;
        assert ColonGroupOk(s, g);
        assert k == 3 * g + 2 || k == 3 * g + 3 || k == 3 * g + 4;
      }
    }
  }

  /** With a well-formed MAC address, add_node's INSERT reads back as the row it stores. */
  lemma WellFormedMacInsertReadsBack(rack: NodeNumber, chassis: NodeNumber, mac: Option<CString>,
                                     enabled: bool, config: CString)
    requires MacWellFormed(mac)
    ensures AddNodeQuery(rack, chassis, mac, enabled, Some(config)).Some?
    ensures ParseInsert(AddNodeQuery(rack, chassis, mac, enabled, Some(config)).value)
         == Some(NodeRow(rack, chassis, mac.value, if enabled then 1 else 0, config))
  {
    WellFormedMacIsAccepted(mac);
    WellFormedMacHasNoQuote(mac.value);
    InsertQueryReadsBack(rack, chassis, mac.value, if enabled then 1 else 0, config);
  }

  /** A MAC address with a quote where the fifth group's colon belongs. */
  const QuotedMac: CString := "ff:ff:ff:ff:ff\"zz"

  /** The as-written check accepts QuotedMac; the corrected one rejects it. */
  lemma QuotedMacSplitsChecks()
    ensures MacAccepted(Some(QuotedMac)) && !MacWellFormed(Some(QuotedMac))
  {
    var m := QuotedMac;
    assert ColonGroupOk(m, 0) && ColonGroupOk(m, 1) && ColonGroupOk(m, 2) && ColonGroupOk(m, 3);
    assert !ColonGroupOk(m, 4);
  }

  /** Between quotes, QuotedMac reads as its first fourteen characters only. */
  lemma QuotedMacTokenReads(after: string)
    ensures Quoted(['"'] + (QuotedMac + (['"'] + after))).Some?
    ensures Quoted(['"'] + (QuotedMac + (['"'] + after))).value.0 == "ff:ff:ff:ff:ff"
  {
    var prefix := "ff:ff:ff:ff:ff";
    var rest := "zz" + (['"'] + after);
    var body := QuotedMac + (['"'] + after);
    assert body == prefix + (['"'] + rest) by {
      assert QuotedMac == prefix + (['"'] + "zz");
    }
    PlainTokenReads(prefix, rest);
    assert (['"'] + body)[1..] == body;
  }

  /**
   * The as-written check accepts QuotedMac, and the INSERT that add_node
   * builds from it does not read back as a row holding that address.
   */
  lemma AsWrittenCheckLetsQuoteThrough(rack: NodeNumber, chassis: NodeNumber, enabled: bool, config: CString)
    ensures MacAccepted(Some(QuotedMac)) && !MacWellFormed(Some(QuotedMac))
    ensures AddNodeQuery(rack, chassis, Some(QuotedMac), enabled, Some(config)).Some?
    ensures ParseInsert(AddNodeQuery(rack, chassis, Some(QuotedMac), enabled, Some(config)).value)
         != Some(NodeRow(rack, chassis, QuotedMac, if enabled then 1 else 0, config))
  {
    QuotedMacSplitsChecks();
    var e := if enabled then 1 else 0;
    var afterMac := Separator + (DecimalText(e) + (Separator
      + (['"'] + (Escape(config) + (['"'] + InsertTail)))));
    var fromMac := ['"'] + (QuotedMac + (['"'] + afterMac));
    assert AddNodeQuery(rack, chassis, Some(QuotedMac), enabled, Some(config)).value
        == InsertHead + (DecimalText(rack) + (Separator + (DecimalText(chassis) + (Separator + fromMac))));
    InsertHeadReads(rack, chassis, fromMac);
    QuotedMacTokenReads(afterMac);
  }

  /**
   * An address that passes the as-written check and, once in the INSERT,
   * closes the VALUES list and appends a statement of its own.
   */
  const InjectionMac: CString := "ff:ff:ff:ff:ff" + InjectionTail
  const InjectionTail: CString := "\", 1, \"x\");" + " DROP TABLE nodes; --"

  /** The as-written check accepts InjectionMac; the corrected one rejects it. */
  lemma InjectionMacSplitsChecks()
    ensures MacAccepted(Some(InjectionMac)) && !MacWellFormed(Some(InjectionMac))
  {
    var m := InjectionMac;
    assert ColonGroupOk(m, 0) && ColonGroupOk(m, 1) && ColonGroupOk(m, 2) && ColonGroupOk(m, 3);
    assert !ColonGroupOk(m, 4);
  }

  /**
   * Between quotes InjectionMac reads as `ff:ff:ff:ff:ff`, and the statement
   * text after the token is `, 1, "x"); DROP TABLE nodes; --`: the end of a
   * complete INSERT, then a DROP of the whole table, then a comment that
   * swallows the rest of the template.
   */
  lemma InjectionMacTokenReads(after: string)
    ensures Quoted(['"'] + (InjectionMac + (['"'] + after)))
         == Some(("ff:ff:ff:ff:ff", InjectionTail[1..] + (['"'] + after)))
  {
    var prefix := "ff:ff:ff:ff:ff";
    var rest := InjectionTail[1..] + (['"'] + after);
    var body := InjectionMac + (['"'] + after);
    assert body == prefix + (['"'] + rest) by {
      assert InjectionTail == ['"'] + InjectionTail[1..];
    }
    PlainTokenReads(prefix, rest);
    assert (['"'] + body)[1..] == body;
  }
}
