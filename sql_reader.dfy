/**
 * How SQLite reads back the statements that src/sql.c builds: the
 * double-quoted token rule (a doubled quote inside the token stands for one
 * quote, a single quote ends it), unsigned decimal numbers, and the fixed
 * words of the INSERT and DELETE templates. These readers are the reference
 * the statement builders are proved against.
 */
module SqlReader {
  import opened Wrappers
  import opened CText
  import opened Sql

  // ---------------------------------------------------------------------
  // Collapsing doubled quotes
  // ---------------------------------------------------------------------

  /**
   * Collapse each `""` of `t` to one `"`; None when `t` holds a quote that
   * is not part of such a pair.
   */
  function Unescape(t: string): Option<string>
  {
    if t == [] then Some([])
    else if t[0] == '"' then
      if |t| >= 2 && t[1] == '"' then
        var u :- Unescape(t[2..]);
        Some(['"'] + u)
      else None
    else
      var u :- Unescape(t[1..]);
      Some([t[0]] + u)
  }

  /** Collapsing the pairs of fix_string's output gives back its input. */
  lemma {:induction false} UnescapeEscape(s: string)
    ensures Unescape(Escape(s)) == Some(s)
  {
    if s != [] {
      UnescapeEscape(s[1..]);
      var e := Escape(s);
      if s[0] == '"' {
        assert e[2..] == Escape(s[1..]);
      } else {
        assert e[1..] == Escape(s[1..]);
      }
      assert s == [s[0]] + s[1..];
    }
  }

  /** Conversely, any text whose quotes all come in pairs is the escape of what it collapses to. */
  lemma {:induction false} EscapeUnescape(t: string, s: string)
    requires Unescape(t) == Some(s)
    ensures Escape(s) == t
  {
    if t != [] {
      if t[0] == '"' {
        var u := Unescape(t[2..]).value;
        EscapeUnescape(t[2..], u);
        assert s == ['"'] + u;
        assert s[1..] == u;
        assert t == "\"\"" + t[2..];
      } else {
        var u := Unescape(t[1..]).value;
        EscapeUnescape(t[1..], u);
        assert s == [t[0]] + u;
        assert s[1..] == u;
        assert t == [t[0]] + t[1..];
      }
    }
  }

  // ---------------------------------------------------------------------
  // Tokens
  // ---------------------------------------------------------------------

  /**
   * Read a double-quoted token from just after its opening quote. Gives the
   * token's value and the text after the closing quote, or None when the
   * token is never closed.
   */
  function ReadQuoted(t: string): (r: Option<(string, string)>)
    ensures r.Some? ==> |r.value.1| < |t| && r.value.1 == t[|t| - |r.value.1|..]
  {
    if t == [] then None
    else if t[0] == '"' then
      if |t| >= 2 && t[1] == '"' then
        var p :- ReadQuoted(t[2..]);
        Some((['"'] + p.0, p.1))
      else Some(([], t[1..]))
    else
      var p :- ReadQuoted(t[1..]);
      Some(([t[0]] + p.0, p.1))
  }

  /** A whole double-quoted token, opening quote included. */
  function Quoted(s: string): Option<(string, string)>
  {
    if s != [] && s[0] == '"' then ReadQuoted(s[1..]) else None
  }

  /** The text after `lit`, when `s` starts with `lit`. */
  function Literal(lit: string, s: string): (r: Option<string>)
    ensures r.Some? ==> s == lit + r.value
  {
    if lit <= s then Some(s[|lit|..]) else None
  }

  /** The length of the run of decimal digits that `s` starts with. */
  function DigitRun(s: string): (k: nat)
    ensures k <= |s| && AllDigits(s[..k])
    ensures k < |s| ==> !IsDigit(s[k])
  {
    if s != [] && IsDigit(s[0]) then
      var k := 1 + DigitRun(s[1..]);
      assert s[..k] == [s[0]] + s[1..][..k - 1];
      k
    else 0
  }

  /** An unsigned decimal number and the text after it. */
  function Number(s: string): Option<(nat, string)>
  {
    var k := DigitRun(s);
    if k == 0 then None else Some((DigitsValue(s[..k]), s[k..]))
  }

  // ---------------------------------------------------------------------
  // Statements
  // ---------------------------------------------------------------------

  /** The row an INSERT into `nodes` stores. */
  datatype NodeRow = NodeRow(rackNo: nat, chassisNo: nat, macAddress: string, enabled: nat, config: string)

  /** Read an INSERT statement of add_node's shape; None when it is not one. */
  function ParseInsert(q: string): Option<NodeRow>
  {
    var s0 :- Literal(InsertHead, q);
    var rack :- Number(s0);
    var s1 :- Literal(Separator, rack.1);
    var chassis :- Number(s1);
    var s2 :- Literal(Separator, chassis.1);
    ParseInsertValues(rack.0, chassis.0, s2)
  }

  /** The rest of an INSERT statement, from the quoted MAC address on. */
  function ParseInsertValues(rack: nat, chassis: nat, s: string): (r: Option<NodeRow>)
    ensures r.Some? ==> Quoted(s).Some? && r.value.macAddress == Quoted(s).value.0
  {
    var mac :- Quoted(s);
    var s3 :- Literal(Separator, mac.1);
    var enabled :- Number(s3);
    var s4 :- Literal(Separator, enabled.1);
    var config :- Quoted(s4);
    var s5 :- Literal(InsertTail, config.1);
    if s5 == [] then Some(NodeRow(rack, chassis, mac.0, enabled.0, config.0)) else None
  }

  /** The (rack, chassis) key a DELETE statement of remove_node's shape selects. */
  function ParseDelete(q: string): Option<(nat, nat)>
  {
    var s0 :- Literal(DeleteHead, q);
    var rack :- Number(s0);
    var s1 :- Literal(DeleteMiddle, rack.1);
    var chassis :- Number(s1);
    var s2 :- Literal(DeleteTail, chassis.1);
    if s2 == [] then Some((rack.0, chassis.0)) else None
  }

  // ---------------------------------------------------------------------
  // Reading back what sql.c writes
  // ---------------------------------------------------------------------

  lemma LiteralReads(lit: string, rest: string)
    ensures Literal(lit, lit + rest) == Some(rest)
  {
  }

  lemma {:induction false} DigitRunOf(d: string, rest: string)
    requires AllDigits(d)
    requires rest == [] || !IsDigit(rest[0])
    ensures DigitRun(d + rest) == |d|
  {
    if d != [] {
      assert (d + rest)[1..] == d[1..] + rest;
      DigitRunOf(d[1..], rest);
    } else {
      assert d + rest == rest;
    }
  }

  /** `%i` followed by a non-digit reads back as the same number. */
  lemma NumberReads(n: nat, rest: string)
    requires rest == [] || !IsDigit(rest[0])
    ensures Number(DecimalText(n) + rest) == Some((n, rest))
  {
    var d := DecimalText(n);
    DigitRunOf(d, rest);
    assert (d + rest)[..|d|] == d;
    assert (d + rest)[|d|..] == rest;
    DigitsValueOfDecimalText(n);
  }

  /**
   * The escaped text followed by a closing quote reads back as exactly the
   * original text: no quote of the value can end the token early.
   */
  lemma {:induction false} EscapedTokenReads(v: string, rest: string)
    requires rest == [] || rest[0] != '"'
    ensures ReadQuoted(Escape(v) + (['"'] + rest)) == Some((v, rest))
  {
    if v == [] {
      var t := ['"'] + rest;
      assert Escape(v) + t == t;
      assert t[1..] == rest;
    } else {
      EscapedTokenReads(v[1..], rest);
      EscapeHead(v, ['"'] + rest);
      if v[0] == '"' {
        ReadQuotedPair(Escape(v) + (['"'] + rest));
      } else {
        ReadQuotedOther(Escape(v) + (['"'] + rest));
      }
      assert v == [v[0]] + v[1..];
    }
  }

  /** Escaping `v` then appending `u`, seen from its first character. */
  lemma EscapeHead(v: string, u: string)
    requires v != []
    ensures var t := Escape(v) + u;
      if v[0] == '"' then |t| >= 2 && t[0] == '"' && t[1] == '"' && t[2..] == Escape(v[1..]) + u
      else t != [] && t[0] == v[0] && t[1..] == Escape(v[1..]) + u
  {
    var x := Escape(v[1..]) + u;
    if v[0] == '"' {
      calc {
        Escape(v) + u;
        ("\"\"" + Escape(v[1..])) + u;
        { assert ("\"\"" + Escape(v[1..])) + u == "\"\"" + x; }
        "\"\"" + x;
      }
      assert ("\"\"" + x)[2..] == x;
    } else {
      calc {
        Escape(v) + u;
        ([v[0]] + Escape(v[1..])) + u;
        { assert ([v[0]] + Escape(v[1..])) + u == [v[0]] + x; }
        [v[0]] + x;
      }
      assert ([v[0]] + x)[1..] == x;
    }
  }

  lemma ReadQuotedPair(t: string)
    requires |t| >= 2 && t[0] == '"' && t[1] == '"' && ReadQuoted(t[2..]).Some?
    ensures ReadQuoted(t) == Some((['"'] + ReadQuoted(t[2..]).value.0, ReadQuoted(t[2..]).value.1))
  {
  }

  lemma ReadQuotedOther(t: string)
    requires t != [] && t[0] != '"' && ReadQuoted(t[1..]).Some?
    ensures ReadQuoted(t) == Some(([t[0]] + ReadQuoted(t[1..]).value.0, ReadQuoted(t[1..]).value.1))
  {
  }

  /** A value without quotes, followed by a quote, reads back as itself. */
  lemma PlainTokenReads(v: string, rest: string)
    requires '"' !in v
    requires rest == [] || rest[0] != '"'
    ensures ReadQuoted(v + (['"'] + rest)) == Some((v, rest))
  {
    QuoteCountZero(v);
    EscapedTokenReads(v, rest);
  }

  /** The escaped value between two quotes reads back as the value. */
  lemma QuotedReads(v: string, rest: string)
    requires rest == [] || rest[0] != '"'
    ensures Quoted(['"'] + (Escape(v) + (['"'] + rest))) == Some((v, rest))
  {
    EscapedTokenReads(v, rest);
    assert (['"'] + (Escape(v) + (['"'] + rest)))[1..] == Escape(v) + (['"'] + rest);
  }

  /** The statement text up to and including the separator before the MAC address reads back. */
  lemma InsertHeadReads(rack: NodeNumber, chassis: NodeNumber, tail: string)
    ensures ParseInsert(InsertHead + (DecimalText(rack) + (Separator + (DecimalText(chassis) + (Separator + tail)))))
         == ParseInsertValues(rack, chassis, tail)
  {
    LiteralReads(InsertHead, DecimalText(rack) + (Separator + (DecimalText(chassis) + (Separator + tail))));
    NumberReads(rack, Separator + (DecimalText(chassis) + (Separator + tail)));
    LiteralReads(Separator, DecimalText(chassis) + (Separator + tail));
    NumberReads(chassis, Separator + tail);
    LiteralReads(Separator, tail);
  }

  /**
   * add_node's INSERT reads back as the row it was built from, the config
   * path unescaped, whenever the MAC address holds no quote.
   */
  lemma InsertQueryReadsBack(rack: NodeNumber, chassis: NodeNumber, mac: string, enabled: nat, config: string)
    requires '"' !in mac
    ensures ParseInsert(InsertQuery(rack, chassis, mac, enabled, Escape(config)))
         == Some(NodeRow(rack, chassis, mac, enabled, config))
  {
    var afterConfig := ['"'] + InsertTail;
    var fromConfig := ['"'] + (Escape(config) + afterConfig);
    var fromEnabled := DecimalText(enabled) + (Separator + fromConfig);
    var afterMac := Separator + fromEnabled;
    var fromMac := ['"'] + (mac + (['"'] + afterMac));
    InsertHeadReads(rack, chassis, fromMac);
    QuoteCountZero(mac);
    QuotedReads(mac, afterMac);
    LiteralReads(Separator, fromEnabled);
    NumberReads(enabled, Separator + fromConfig);
    LiteralReads(Separator, fromConfig);
    QuotedReads(config, InsertTail);
    LiteralReads(InsertTail, []);
    assert InsertTail + [] == InsertTail;
  }

  /** remove_node's DELETE reads back as the key it was built from. */
  lemma DeleteQueryReadsBack(rack: NodeNumber, chassis: NodeNumber)
    ensures ParseDelete(DeleteQuery(rack, chassis)) == Some((rack as nat, chassis as nat))
  {
    LiteralReads(DeleteHead, DecimalText(rack) + (DeleteMiddle + (DecimalText(chassis) + DeleteTail)));
    NumberReads(rack, DeleteMiddle + (DecimalText(chassis) + DeleteTail));
    LiteralReads(DeleteMiddle, DecimalText(chassis) + DeleteTail);
    NumberReads(chassis, DeleteTail);
    LiteralReads(DeleteTail, []);
    assert DeleteTail + [] == DeleteTail;
  }
}
