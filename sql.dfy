/**
 * src/sql.c: validation of a node's MAC address, escaping of the config
 * path, and the SQL statements add_node and remove_node hand to SQLite.
 * The SQLite connection is a `Connection` whose engine verdict, given the
 * statements run before, is a parameter; the statements themselves are
 * modelled exactly.
 */
module Sql {
  import opened Wrappers
  import opened CText

  /**
   * A rack or chassis number. The source takes an `unsigned int` and prints
   * it with `%i`; below 2^31 that prints the plain decimal value.
   */
  type NodeNumber = n: nat | n < 0x8000_0000

  // ---------------------------------------------------------------------
  // check_mac_address
  // ---------------------------------------------------------------------

  /** The `:hh` group number `g` (g = 0 starts at index 2) of a MAC address. */
  predicate ColonGroupOk(s: string, g: nat)
    requires 3 * g + 4 < |s|
  {
    s[3 * g + 2] == ':' && IsXDigit(s[3 * g + 3]) && IsXDigit(s[3 * g + 4])
  }

  /**
   * What check_mac_address accepts: a non-NULL string of at least 17
   * characters whose first two characters are hex digits, followed by the
   * four `:hh` groups at indices 2, 5, 8 and 11. Index 14 onwards is never
   * looked at.
   */
  predicate MacAccepted(str: Option<CString>)
  {
    && str.Some?
    && |str.value| >= 17
    && IsXDigit(str.value[0]) && IsXDigit(str.value[1])
    && forall g :: 0 <= g < 4 ==> ColonGroupOk(str.value, g)
  }

  /** check_mac_address, with the loop over i = 2, 5, 8, 11. */
  method CheckMacAddress(str: Option<CString>) returns (ok: bool)
    ensures ok <==> MacAccepted(str)
  {
    if str.None? {
      return false;
    }
    var s := str.value;
    if 17 != StrnLen(s, 17) {
      return false;
    }
    if !IsXDigit(s[0]) || !IsXDigit(s[1]) {
      return false;
    }
    var i := 2;
    ghost var g := 0;
    while i < 14
      invariant i == 3 * g + 2 && 0 <= g <= 4
      invariant forall h :: 0 <= h < g ==> ColonGroupOk(s, h)
    {
      if s[i] != ':' || !IsXDigit(s[i + 1]) || !IsXDigit(s[i + 2]) {
        assert !ColonGroupOk(s, g);
        return false;
      }
      i := i + 3;
      g := g + 1;
    }
    return true;
  }

  /** The length test only rejects NULL and strings shorter than 17 characters. */
  lemma MacRejectsShort(str: Option<CString>)
    requires str.None? || |str.value| < 17
    ensures !MacAccepted(str)
  {
  }

  /** Characters from index 14 on never change the verdict. */
  lemma MacIgnoresTail(s: CString, t: CString)
    requires |s| >= 17 && |t| >= 17 && s[..14] == t[..14]
    ensures MacAccepted(Some(s)) <==> MacAccepted(Some(t))
  {
    forall k | 0 <= k < 14
      ensures s[k] == t[k]
    {
      assert s[k] == s[..14][k];
    }
    forall g | 0 <= g < 4
      ensures ColonGroupOk(s, g) <==> ColonGroupOk(t, g)
    {
    }
  }

  // ---------------------------------------------------------------------
  // fix_string
  // ---------------------------------------------------------------------

  /** The number of double quotes in `s`. */
  function QuoteCount(s: string): nat
  {
    if s == [] then 0 else (if s[0] == '"' then 1 else 0) + QuoteCount(s[1..])
  }

  /** `s` with its double quotes taken out. */
  function RemoveQuotes(s: string): string
  {
    if s == [] then [] else (if s[0] == '"' then [] else [s[0]]) + RemoveQuotes(s[1..])
  }

  /** The text fix_string leaves in its GString: every `"` of `s` doubled. */
  function Escape(s: string): (r: string)
    ensures |r| == |s| + QuoteCount(s)
    ensures QuoteCount(s) == 0 ==> r == s
  {
    if s == [] then [] else (if s[0] == '"' then "\"\"" else [s[0]]) + Escape(s[1..])
  }

  /** Escaping distributes over concatenation. */
  lemma {:induction false} EscapeAppend(a: string, b: string)
    ensures Escape(a + b) == Escape(a) + Escape(b)
  {
    if a != [] {
      assert (a + b)[1..] == a[1..] + b;
      EscapeAppend(a[1..], b);
    } else {
      assert a + b == b;
    }
  }

  /** The output holds twice as many quotes as the input. */
  lemma {:induction false} EscapeDoublesQuotes(s: string)
    ensures QuoteCount(Escape(s)) == 2 * QuoteCount(s)
  {
    if s != [] {
      EscapeDoublesQuotes(s[1..]);
      var head := if s[0] == '"' then "\"\"" else [s[0]];
      QuoteCountAppend(head, Escape(s[1..]));
      if s[0] == '"' {
        assert QuoteCount(head) == 1 + QuoteCount(head[1..]);
      }
    }
  }

  lemma {:induction false} QuoteCountAppend(a: string, b: string)
    ensures QuoteCount(a + b) == QuoteCount(a) + QuoteCount(b)
  {
    if a != [] {
      assert (a + b)[1..] == a[1..] + b;
      QuoteCountAppend(a[1..], b);
    } else {
      assert a + b == b;
    }
  }

  lemma {:induction false} RemoveQuotesAppend(a: string, b: string)
    ensures RemoveQuotes(a + b) == RemoveQuotes(a) + RemoveQuotes(b)
  {
    if a != [] {
      assert (a + b)[1..] == a[1..] + b;
      RemoveQuotesAppend(a[1..], b);
    } else {
      assert a + b == b;
    }
  }

  /** Every character other than `"` is kept, in its original order. */
  lemma {:induction false} EscapeKeepsOtherCharacters(s: string)
    ensures RemoveQuotes(Escape(s)) == RemoveQuotes(s)
  {
    if s != [] {
      EscapeKeepsOtherCharacters(s[1..]);
      var head := if s[0] == '"' then "\"\"" else [s[0]];
      RemoveQuotesAppend(head, Escape(s[1..]));
      if s[0] == '"' {
        assert RemoveQuotes(head) == RemoveQuotes(head[1..]);
        assert RemoveQuotes(head[1..]) == RemoveQuotes(head[1..][1..]);
      } else {
        assert RemoveQuotes(head) == [s[0]] + RemoveQuotes(head[1..]);
      }
    }
  }

  /** A NUL-free input gives a NUL-free output, so `%s` prints all of it. */
  lemma {:induction false} EscapeKeepsNulFree(s: CString)
    ensures '\0' !in Escape(s)
  {
    if s != [] {
      EscapeKeepsNulFree(s[1..]);
    }
  }

  /** A glib GString: a growable text buffer updated in place. */
  class GString {
    var str: string

    /** g_string_new */
    constructor (init: CString)
      ensures str == init
    {
      str := init;
    }

    /** g_string_insert_c: insert `c` before position `pos`. */
    method InsertC(pos: nat, c: char)
      requires pos <= |str|
      modifies this
      ensures str == old(str[..pos]) + [c] + old(str[pos..])
    {
      str := str[..pos] + [c] + str[pos..];
    }
  }

  /**
   * fix_string: copy `s` into a new GString and double every `"` in place.
   * After an insertion the index skips the inserted quote, so each
   * character of `s` is visited once.
   */
  method FixString(s: CString) returns (ret: GString)
    ensures fresh(ret)
    ensures ret.str == Escape(s)
  {
    ret := new GString(s);
    ghost var src: string := s;
    var i := 0;
    ghost var j := 0;  // index in `s` of the character at ret.str[i]
    while i < |ret.str|
      invariant 0 <= j <= |src|
      invariant i == |Escape(src[..j])|
      invariant ret.str == Escape(src[..j]) + src[j..]
      decreases |ret.str| - i
    {
      EscapeStep(src, j, ret.str);
      if ret.str[i] == '"' {
        ret.InsertC(i, '"');
        i := i + 1;
      }
      i := i + 1;
      j := j + 1;
    }
    assert src[..j] == src;
  }

  /**
   * One step of fix_string's loop on a buffer `t` holding the escaped first
   * `j` characters of `s` followed by the rest of `s`: the character under
   * the index is `s[j]`; a quote there, doubled, or any other character, left
   * alone, makes the buffer hold the escaped first `j + 1` characters.
   */
  lemma EscapeStep(s: string, j: nat, t: string)
    requires j < |s| && t == Escape(s[..j]) + s[j..]
    ensures var k := |Escape(s[..j])|;
      && k < |t| && t[k] == s[j]
      && (s[j] == '"' ==> t[..k] + ['"'] + t[k..] == Escape(s[..j + 1]) + s[j + 1..] && |Escape(s[..j + 1])| == k + 2)
      && (s[j] != '"' ==> t == Escape(s[..j + 1]) + s[j + 1..] && |Escape(s[..j + 1])| == k + 1)
  {
    var e := Escape(s[..j]);
    assert s[..j + 1] == s[..j] + [s[j]];
    EscapeAppend(s[..j], [s[j]]);
    assert s[j..] == [s[j]] + s[j + 1..];
    assert t[..|e|] == e && t[|e|..] == s[j..];
  }

  // ---------------------------------------------------------------------
  // add_node and remove_node: the statements
  // ---------------------------------------------------------------------

  const InsertHead: string := "INSERT into nodes(rack_no, chassis_no, " + "mac_address, enabled, config) VALUES("
  const Separator: string := ", "
  const InsertTail: string := ");"
  const DeleteHead: string := "DELETE FROM nodes WHERE rack_no = "
  const DeleteMiddle: string := " AND chassis_no = "
  const DeleteTail: string := ";"

  /** The INSERT template of add_node filled in; `config` is already escaped. */
  function InsertQuery(rack: NodeNumber, chassis: NodeNumber, mac: string, enabled: nat, config: string): string
  {
    InsertHead + (DecimalText(rack) + (Separator + (DecimalText(chassis) + (Separator
      + (['"'] + (mac + (['"'] + (Separator + (DecimalText(enabled) + (Separator
      + (['"'] + (config + (['"'] + InsertTail)))))))))))))
  }

  /**
   * The INSERT template adds exactly the four quotes that delimit the MAC and
   * config tokens: its fixed text and the printed numbers hold none.
   */
  lemma InsertQueryQuotes(rack: NodeNumber, chassis: NodeNumber, mac: string, enabled: nat, config: string)
    ensures QuoteCount(InsertQuery(rack, chassis, mac, enabled, config)) == 4 + QuoteCount(mac) + QuoteCount(config)
  {
    TemplateHasNoQuote();
    NumberHasNoQuote(rack);
    NumberHasNoQuote(chassis);
    NumberHasNoQuote(enabled);
    var configToken := ['"'] + (config + (['"'] + InsertTail));
    assert QuoteCount(configToken) == 2 + QuoteCount(config) by {
      QuoteLed(InsertTail);
      QuoteCountAppend(config, ['"'] + InsertTail);
      QuoteLed(config + (['"'] + InsertTail));
    }
    var enabledPart := DecimalText(enabled) + (Separator + configToken);
    assert QuoteCount(enabledPart) == 2 + QuoteCount(config) by {
      QuoteFreePrefix(Separator, configToken);
      QuoteFreePrefix(DecimalText(enabled), Separator + configToken);
    }
    var macToken := ['"'] + (mac + (['"'] + (Separator + enabledPart)));
    assert QuoteCount(macToken) == 4 + QuoteCount(mac) + QuoteCount(config) by {
      QuoteFreePrefix(Separator, enabledPart);
      QuoteLed(Separator + enabledPart);
      QuoteCountAppend(mac, ['"'] + (Separator + enabledPart));
      QuoteLed(mac + (['"'] + (Separator + enabledPart)));
    }
    var chassisPart := DecimalText(chassis) + (Separator + macToken);
    assert QuoteCount(chassisPart) == QuoteCount(macToken) by {
      QuoteFreePrefix(Separator, macToken);
      QuoteFreePrefix(DecimalText(chassis), Separator + macToken);
    }
    QuoteFreePrefix(Separator, chassisPart);
    QuoteFreePrefix(DecimalText(rack), Separator + chassisPart);
    QuoteFreePrefix(InsertHead, DecimalText(rack) + (Separator + chassisPart));
  }

  /** The DELETE template of remove_node filled in: it holds no quoted token. */
  function DeleteQuery(rack: NodeNumber, chassis: NodeNumber): (r: string)
    ensures '"' !in r
  {
    DeleteHead + (DecimalText(rack) + (DeleteMiddle + (DecimalText(chassis) + DeleteTail)))
  }

  /** The DELETE is a single statement: its only `;` is the last character. */
  lemma DeleteQueryIsOneStatement(rack: NodeNumber, chassis: NodeNumber)
    ensures var r := DeleteQuery(rack, chassis); |r| > 0 && r[|r| - 1] == ';' && ';' !in r[..|r| - 1]
  {
    var body := DeleteHead + (DecimalText(rack) + (DeleteMiddle + DecimalText(chassis)));
    assert DeleteQuery(rack, chassis) == body + DeleteTail;
    assert DeleteQuery(rack, chassis)[..|body|] == body;
  }

  /** A text holds no quote exactly when its quote count is zero. */
  lemma {:induction false} QuoteCountZero(s: string)
    ensures QuoteCount(s) == 0 <==> '"' !in s
  {
    if s != [] {
      QuoteCountZero(s[1..]);
      assert s == [s[0]] + s[1..];
    }
  }

  /** Text without a quote adds no quote to what follows it. */
  lemma {:induction false} QuoteFreePrefix(a: string, b: string)
    requires '"' !in a
    ensures QuoteCount(a + b) == QuoteCount(b)
  {
    if a != [] {
      assert (a + b)[1..] == a[1..] + b;
      QuoteFreePrefix(a[1..], b);
    } else {
      assert a + b == b;
    }
  }

  /** The fixed text of the INSERT template holds no quote. */
  lemma TemplateHasNoQuote()
    ensures '"' !in InsertHead && '"' !in Separator && '"' !in InsertTail
  {
  }

  /** Nor does a number printed with `%i`. */
  lemma NumberHasNoQuote(n: nat)
    ensures '"' !in DecimalText(n)
  {
    var d := DecimalText(n);
    assert forall i :: 0 <= i < |d| ==> IsDigit(d[i]);
  }

  /** An opening quote adds one. */
  lemma QuoteLed(b: string)
    ensures QuoteCount(['"'] + b) == 1 + QuoteCount(b)
  {
    assert (['"'] + b)[1..] == b;
  }

  /**
   * The statement add_node hands to SQLite, or None when it returns false
   * before touching the database: an invalid or NULL MAC address (checked
   * first) or a NULL config path.
   */
  function AddNodeQuery(rack: NodeNumber, chassis: NodeNumber, macAddress: Option<CString>,
                        enabled: bool, configPath: Option<CString>): (r: Option<string>)
    ensures r.None? <==> !MacAccepted(macAddress) || configPath.None?
  {
    if !MacAccepted(macAddress) then None
    else if configPath.None? then None
    else Some(InsertQuery(rack, chassis, macAddress.value, if enabled then 1 else 0, Escape(configPath.value)))
  }

  /**
   * The open SQLite connection of src/sql.c. `executed` lists the statements
   * handed to sqlite3_exec, oldest first; `engine(history, query)` says whether
   * SQLite reports SQLITE_OK for `query` after the statements in `history`,
   * so the verdict may depend on what the database holds by then.
   */
  class Connection {
    var executed: seq<string>
    const engine: (seq<string>, string) -> bool

    constructor (engine: (seq<string>, string) -> bool)
      ensures executed == [] && this.engine == engine
    {
      executed := [];
      this.engine := engine;
    }

    /** sqlite3_exec: true when SQLite reports SQLITE_OK. */
    method Exec(query: string) returns (ok: bool)
      modifies this
      ensures executed == old(executed) + [query]
      ensures ok == engine(old(executed), query)
    {
      ok := engine(executed, query);
      executed := executed + [query];
    }

    /** add_node */
    method AddNode(rack: NodeNumber, chassis: NodeNumber, macAddress: Option<CString>,
                   enabled: bool, configPath: Option<CString>) returns (ok: bool)
      modifies this
      ensures var plan := AddNodeQuery(rack, chassis, macAddress, enabled, configPath);
        && (plan.None? ==> !ok && executed == old(executed))
        && (plan.Some? ==> executed == old(executed) + [plan.value] && ok == engine(old(executed), plan.value))
    {
      var macOk := CheckMacAddress(macAddress);
      if !macOk {
        return false;
      }
      if configPath.None? {
        return false;
      }
      var configString := FixString(configPath.value);
      var enabledInt := if enabled then 1 else 0;
      var query := InsertQuery(rack, chassis, macAddress.value, enabledInt, configString.str);
      ok := Exec(query);
    }

    /** remove_node */
    method RemoveNode(rack: NodeNumber, chassis: NodeNumber) returns (ok: bool)
      modifies this
      ensures executed == old(executed) + [DeleteQuery(rack, chassis)]
      ensures ok == engine(old(executed), DeleteQuery(rack, chassis))
    {
      var query := DeleteQuery(rack, chassis);
      ok := Exec(query);
    }
  }
}
