/**
 * The cases src/test/sql-test.c runs against add_node and remove_node,
 * stated over the model: which calls are rejected before SQLite is reached,
 * and what the statements that do reach it store.
 */
module SqlScenarios {
  import opened Wrappers
  import opened CText
  import opened Sql
  import opened SqlReader

  const CorrectMac: CString := "ff:ff:ff:ff:ff:ff"
  const NotAMac: CString := "not a mac address"
  const MyConfig: CString := "myconfig"
  const MaliciousConfig: CString := MaliciousHead + MaliciousTail
  const MaliciousHead: CString := "\" lala sqlite will error."
  const MaliciousTail: CString := " I could drop all your tables!!!"

  /** The canonical address passes the check and holds no quote. */
  lemma CorrectMacAccepted()
    ensures MacAccepted(Some(CorrectMac)) && '"' !in CorrectMac
  {
  }

  /** "not a mac address" is long enough but fails at its first character. */
  lemma NotAMacRejected()
    ensures |NotAMac| == 17 && !MacAccepted(Some(NotAMac))
  {
  }

  /**
   * A config path that starts with a quote still lands, whole and unchanged,
   * in the config column.
   */
  lemma MaliciousConfigReadsBack(testNum: NodeNumber)
    ensures AddNodeQuery(testNum, testNum, Some(CorrectMac), false, Some(MaliciousConfig)).Some?
    ensures ParseInsert(AddNodeQuery(testNum, testNum, Some(CorrectMac), false, Some(MaliciousConfig)).value)
         == Some(NodeRow(testNum, testNum, CorrectMac, 0, MaliciousConfig))
  {
    CorrectMacAccepted();
    InsertQueryReadsBack(testNum, testNum, CorrectMac, 0, MaliciousConfig);
  }

  /** The first node the test adds reads back as the row it stores. */
  lemma MyConfigReadsBack(testNum: NodeNumber)
    ensures AddNodeQuery(testNum, testNum, Some(CorrectMac), true, Some(MyConfig)).Some?
    ensures ParseInsert(AddNodeQuery(testNum, testNum, Some(CorrectMac), true, Some(MyConfig)).value)
         == Some(NodeRow(testNum, testNum, CorrectMac, 1, MyConfig))
  {
    CorrectMacAccepted();
    InsertQueryReadsBack(testNum, testNum, CorrectMac, 1, MyConfig);
  }

  /**
   * The three calls of sql-test.c that must fail: a bad MAC address, a NULL
   * one and a NULL config path. Each returns false and reaches no statement.
   */
  method RejectedCalls(db: Connection, testNum: NodeNumber) returns (badMac: bool, nullMac: bool, nullConfig: bool)
    modifies db
    ensures !badMac && !nullMac && !nullConfig
    ensures db.executed == old(db.executed)
  {
    NotAMacRejected();
    badMac := db.AddNode(testNum, testNum, Some(NotAMac), false, Some(MyConfig));
    nullMac := db.AddNode(testNum, testNum, None, false, Some(MyConfig));
    nullConfig := db.AddNode(testNum, testNum, Some(CorrectMac), false, None);
  }

  /**
   * A node with the canonical MAC address added and then removed again, as
   * sql-test.c does twice: both statements reach SQLite, in order, and each
   * call returns the engine's verdict on its statement, given the statements
   * executed before it.
   */
  method AddThenRemove(db: Connection, testNum: NodeNumber, enabled: bool, config: CString)
    returns (added: bool, removed: bool)
    modifies db
    ensures AddNodeQuery(testNum, testNum, Some(CorrectMac), enabled, Some(config)).Some?
    ensures var insert := AddNodeQuery(testNum, testNum, Some(CorrectMac), enabled, Some(config)).value;
      && db.executed == old(db.executed) + [insert, DeleteQuery(testNum, testNum)]
      && added == db.engine(old(db.executed), insert)
      && removed == db.engine(old(db.executed) + [insert], DeleteQuery(testNum, testNum))
  {
    CorrectMacAccepted();
    added := db.AddNode(testNum, testNum, Some(CorrectMac), enabled, Some(config));
    removed := db.RemoveNode(testNum, testNum);
  }

  /**
   * The sequence of calls of sql-test.c on a fresh connection whose engine
   * verdict, given the statements run before, is `engine`, for any rack and
   * chassis number `testNum` and any two config paths: the three rejected
   * calls return false whatever the engine says, and exactly four statements
   * reach SQLite, in order: the INSERT of the first node, its DELETE, the
   * INSERT of the second node and its DELETE.
   */
  method TestCalls(engine: (seq<string>, string) -> bool, testNum: NodeNumber, firstConfig: CString, secondConfig: CString)
    returns (executed: seq<string>, results: seq<bool>)
    ensures |results| == 7 && !results[2] && !results[3] && !results[4]
    ensures executed == [
      AddNodeQuery(testNum, testNum, Some(CorrectMac), true, Some(firstConfig)).value,
      DeleteQuery(testNum, testNum),
      AddNodeQuery(testNum, testNum, Some(CorrectMac), false, Some(secondConfig)).value,
      DeleteQuery(testNum, testNum)]
    ensures results[0] == engine([], executed[0]) && results[1] == engine([executed[0]], executed[1])
    ensures results[5] == engine([executed[0], executed[1]], executed[2])
    ensures results[6] == engine([executed[0], executed[1], executed[2]], executed[3])
  {
    var db := new Connection(engine);
    ghost var insertFirst := AddNodeQuery(testNum, testNum, Some(CorrectMac), true, Some(firstConfig)).value;
    ghost var insertSecond := AddNodeQuery(testNum, testNum, Some(CorrectMac), false, Some(secondConfig)).value;
    ghost var delete := DeleteQuery(testNum, testNum);
    var added, removed := AddThenRemove(db, testNum, true, firstConfig);
    assert db.executed == [insertFirst, delete] && [] + [insertFirst] == [insertFirst];
    var badMac, nullMac, nullConfig := RejectedCalls(db, testNum);
    var addedAgain, removedAgain := AddThenRemove(db, testNum, false, secondConfig);
    assert db.executed == [insertFirst, delete, insertSecond, delete];
    assert [insertFirst, delete] + [insertSecond] == [insertFirst, delete, insertSecond];
    executed := db.executed;
    results := [added, removed, badMac, nullMac, nullConfig, addedAgain, removedAgain];
  }

  /**
   * The calls of sql-test.c with its own config paths (the test uses 1876142908
   * for `testNum`): the two INSERTs that reach SQLite are the ones
   * MyConfigReadsBack and MaliciousConfigReadsBack read back, each followed
   * by the DELETE of the same key.
   */
  method SqlTest(engine: (seq<string>, string) -> bool, testNum: NodeNumber) returns (executed: seq<string>, results: seq<bool>)
    ensures |results| == 7 && !results[2] && !results[3] && !results[4]
    ensures executed == [
      AddNodeQuery(testNum, testNum, Some(CorrectMac), true, Some(MyConfig)).value,
      DeleteQuery(testNum, testNum),
      AddNodeQuery(testNum, testNum, Some(CorrectMac), false, Some(MaliciousConfig)).value,
      DeleteQuery(testNum, testNum)]
    ensures results[0] == engine([], executed[0]) && results[1] == engine([executed[0]], executed[1])
    ensures results[5] == engine([executed[0], executed[1]], executed[2])
    ensures results[6] == engine([executed[0], executed[1], executed[2]], executed[3])
  {
    executed, results := TestCalls(engine, testNum, MyConfig, MaliciousConfig);
  }
}
