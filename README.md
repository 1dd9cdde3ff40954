# mothership-gui: the node table guard of src/sql.c

The mothership GUI keeps the nodes of the rig (racks of chassis units, each
with a MAC address, an enabled flag and a config file path) in an SQLite table
`nodes`. Before `add_node` builds its `INSERT`, it checks the MAC address with
`check_mac_address` and passes the config path through `fix_string`, which
doubles every `"` so the path can sit inside a `"..."` token of the
statement. `remove_node` builds a `DELETE` for a (rack, chassis) key. This
project models those four functions and proves what they guarantee about the
statement text SQLite receives.

src/EdsacErrorNotebook.c holds only GObject type registration and a greeting
string; there is no tab logic to model. The model covers src/sql.c and the
calls its test makes.

Files:

- `wrappers.dfy`: `Option`, used for a C string that may be NULL and for readers that can fail.
- `ctext.dfy`: C strings are the bytes before the terminating NUL (`CString`): one character per `char`, each a non-NUL value below 256. It also has `strnlen`, `g_ascii_isxdigit` and the decimal text printed by `%i`.
- `sql.dfy`: `check_mac_address` as a specification predicate (`MacAccepted`) plus a method with the source's loop. `fix_string` is a method over a `GString` class, proved against the pure `Escape`. The `INSERT`/`DELETE` templates, and `add_node`/`remove_node` on a `Connection`. Whether SQLite accepts a statement is a parameter of the connection, a function of the statement and of the statements executed before it.
- `sql_reader.dfy`: how SQLite reads those statements back: collapsing `""` pairs (`Unescape`), the double-quoted token rule (`ReadQuoted`), numbers, and whole statements (`ParseInsert`, `ParseDelete`). Also the round-trip lemmas.
- `mac_finding.dfy`: the MAC check's gap (see Findings) and the corrected check.
- `sql_scenarios.dfy`: the calls of src/test/sql-test.c.

Where comments and code differ, the model follows the code. The comment at src/sql.c:51 says quotes are removed; the code doubles them. The comment at src/sql.c:41 promises five `:ff` groups; the loop checks four.

## Model

| member | source | states |
|---|---|---|
| `Sql.CheckMacAddress` | src/sql.c:26-49 | Returns true exactly when the string is non-NULL, has at least 17 characters, starts with two hex digits and has `:hh` groups at indices 2, 5, 8 and 11 |
| `Sql.MacRejectsShort` | src/sql.c:27-34 | NULL and every string shorter than 17 characters are rejected |
| `Sql.MacIgnoresTail` | src/sql.c:41-46 | Two strings of 17 or more characters that agree on indices 0-13 get the same verdict: index 14 on is never read |
| `Sql.Escape` | src/sql.c:52-66 | The escaped text is as long as the input plus its number of quotes; an input without quotes comes out unchanged |
| `Sql.EscapeAppend` | src/sql.c:56-63 | Escaping is done character by character: escaping `a + b` is escaping `a` followed by escaping `b` |
| `Sql.EscapeDoublesQuotes` | src/sql.c:56-63 | The output holds exactly twice as many quotes as the input |
| `Sql.EscapeKeepsOtherCharacters` | src/sql.c:56-63 | With quotes removed, output and input are equal: every other character is kept, in order |
| `Sql.EscapeKeepsNulFree` | src/sql.c:87-101 | A C string's escape holds no NUL, so `%s` prints all of `config_string` |
| `Sql.EscapeStep` | src/sql.c:56-63 | One loop step on a buffer holding the escaped first `j` input characters and then the rest: the character at the loop index is input character `j`; doubling it if it is a quote, and leaving it otherwise, gives the escaped first `j + 1` characters followed by the rest |
| `Sql.QuoteCountZero` | src/sql.c:56-63 | A text has quote count zero exactly when it holds no quote, so by `Escape`'s contract fix_string leaves a quote-free text unchanged |
| `Sql.GString.constructor` | src/sql.c:53 | `g_string_new` holds a copy of the C string |
| `Sql.GString.InsertC` | src/sql.c:59 | `g_string_insert_c` puts the character before the given position and shifts the rest right |
| `Sql.FixString` | src/sql.c:52-66 | Returns a new GString holding exactly `Escape` of the input. The loop ends, and it visits each input character once because the index skips the inserted quote |
| `Sql.InsertQueryQuotes` | src/sql.c:99-101 | The INSERT text (`InsertQuery`) holds exactly four quotes more than the MAC address and the escaped config path: the template's own fixed text and its `%i` numbers hold none |
| `Sql.DeleteQuery` | src/sql.c:124-126 | The DELETE text holds no quote: nothing in it can open a quoted token |
| `Sql.DeleteQueryIsOneStatement` | src/sql.c:124-126 | The DELETE text is one statement: its only `;` is its last character |
| `Sql.AddNodeQuery` | src/sql.c:78-101 | add_node forms no statement exactly when the MAC address fails the check (NULL included) or the config path is NULL |
| `Sql.Connection.constructor` | src/sql.c:68-71 | An opened connection has executed nothing |
| `Sql.Connection.Exec` | src/sql.c:108 | `sqlite3_exec` appends the statement to the executed log; the result is the engine's verdict on it given the statements executed before |
| `Sql.Connection.AddNode` | src/sql.c:78-118 | Rejected inputs return false and execute nothing. Otherwise exactly the INSERT of `AddNodeQuery` is executed and its verdict, given the earlier statements, returned |
| `Sql.Connection.RemoveNode` | src/sql.c:120-139 | Executes exactly the DELETE for (rack, chassis) and returns its verdict given the earlier statements |
| `CText.DecimalText` | src/sql.c:99-101 | `%i` text of a non-negative number: at least one character, all decimal digits, no leading zero |
| `CText.DigitsValueOfDecimalText` | src/sql.c:99-101 | The digits `%i` prints denote the number printed |
| `SqlReader.UnescapeEscape` | src/sql.c:51-66 | Collapsing each `""` pair of fix_string's output gives back its input; every quote of the output is in such a pair |
| `SqlReader.EscapeUnescape` | src/sql.c:52-66 | Any text whose quotes all come in pairs is the escape of what it collapses to, so escaping is one-to-one onto such texts |
| `SqlReader.EscapedTokenReads` | src/sql.c:99-101 | Inside `"..."`, the escaped config path followed by the closing quote reads back as exactly the original path. No quote of the path can end the token early |
| `SqlReader.NumberReads` | src/sql.c:99-101 | A number printed with `%i` and followed by a non-digit reads back as that number |
| `SqlReader.InsertQueryReadsBack` | src/sql.c:99-101 | What `InsertQuery` means: if the MAC address holds no quote, add_node's INSERT reads back as the row (rack, chassis, MAC, enabled as 1/0, unescaped config path) |
| `SqlReader.DeleteQueryReadsBack` | src/sql.c:124-126 | What `DeleteQuery` means: remove_node's DELETE reads back as the (rack, chassis) key it was built from |
| `MacFinding.CheckMacAddressStrict` | src/sql.c:31-46 | Corrected check: true exactly for a non-NULL string of exactly 17 characters with a hex pair and five `:hh` groups |
| `MacFinding.WellFormedMacIsAccepted` | src/sql.c:37-46 | Every address the corrected check accepts, the as-written check accepts too |
| `MacFinding.WellFormedMacHasNoQuote` | src/sql.c:31 | A well-formed address holds no quote |
| `MacFinding.WellFormedMacInsertReadsBack` | src/sql.c:79-101 | With a well-formed MAC address, add_node forms an INSERT that reads back as the row it stores |
| `MacFinding.QuotedMacSplitsChecks` | src/sql.c:32-46 | `ff:ff:ff:ff:ff"zz` passes the as-written check and fails the corrected one |
| `MacFinding.QuotedMacTokenReads` | src/sql.c:100 | Between quotes, that address reads as `ff:ff:ff:ff:ff` only |
| `MacFinding.AsWrittenCheckLetsQuoteThrough` | src/sql.c:79-101 | add_node accepts `ff:ff:ff:ff:ff"zz`, and its INSERT does not read back as a row holding that address |
| `MacFinding.InjectionMacSplitsChecks` | src/sql.c:32-46 | `ff:ff:ff:ff:ff", 1, "x"); DROP TABLE nodes; --` passes the as-written check and fails the corrected one |
| `MacFinding.InjectionMacTokenReads` | src/sql.c:99-101 | Between quotes that address reads as `ff:ff:ff:ff:ff`, and the text after the token is `, 1, "x"); DROP TABLE nodes; --`: the INSERT ends early and a second statement follows |
| `SqlScenarios.CorrectMacAccepted` | src/test/sql-test.c:19-23 | `ff:ff:ff:ff:ff:ff` is accepted and holds no quote |
| `SqlScenarios.NotAMacRejected` | src/test/sql-test.c:27 | `not a mac address` has 17 characters and is rejected |
| `SqlScenarios.MyConfigReadsBack` | src/test/sql-test.c:23 | The valid node of the test forms an INSERT that reads back as its row |
| `SqlScenarios.MaliciousConfigReadsBack` | src/test/sql-test.c:35-37 | A config path starting with a quote lands whole and unchanged in the config column |
| `SqlScenarios.RejectedCalls` | src/test/sql-test.c:26-33 | The bad-MAC, NULL-MAC and NULL-config calls return false and execute nothing, whatever the engine would answer |
| `SqlScenarios.AddThenRemove` | src/test/sql-test.c:22-24 | Adding the node with the canonical address and removing it executes exactly its INSERT and then its DELETE; each call returns the engine's verdict given what ran before |
| `SqlScenarios.TestCalls` | src/test/sql-test.c:17-41 | For any two config paths, the test's calls return false for the three rejected calls and execute exactly INSERT, DELETE, INSERT, DELETE, in order. Each other result is the engine's verdict on its statement given the statements before it |
| `SqlScenarios.SqlTest` | src/test/sql-test.c:17-41 | The same for the test's own config paths `myconfig` and the one starting with a quote: the two INSERTs are those that `MyConfigReadsBack` and `MaliciousConfigReadsBack` read back |

## Left out

- `init_database` and `close_database` (src/sql.c:68-76) are not modelled: opening and closing SQLite, and creating and destroying the mutex, belong to a foreign library and to thread set-up. `Connection`'s constructor stands for an open database.
- The `db_mutex` lock and unlock around each statement are left out: they are thread synchronisation, and the model is sequential.
- What SQLite does with a statement is not modelled. `Connection.engine` is a parameter that gives its SQLITE_OK verdict from the statement and the statements executed before it. The verdicts the test asserts (true for each executed statement) are therefore not proved; they depend on SQLite.
- C strings are bytes; `CString` holds one character per byte. A multi-byte encoding is seen byte by byte, as `strnlen` and the quote loop see it.
- The `puts` of the query and of SQLite's error text goes to stdout and is left out.
- Aborting on a failed allocation (`assert(NULL != ...)`) and `g_string_free` are left out: allocation in the model cannot fail, and memory is not modelled.
- Sql.Connection.AddNode, Sql.Connection.RemoveNode: rack and chassis numbers of 2^31 or more are outside the model (`NodeNumber`). `%i` would print them as negative numbers, and that reinterpretation is not modelled.
- src/node_setup.c (root shell commands and edits to /etc/hosts and /etc/udhcpd.conf) is not part of this model. Neither are src/ui.c and src/main.c (GTK set-up), src/EdsacErrorNotebook.c (type boilerplate) or src/test/add_errors.c (demo data through functions sql.h does not declare).

## Findings

| source | as written | input that shows it | evidently intended | confidence | as-written member | corrected member |
|---|---|---|---|---|---|---|
| src/sql.c:32-46 | The check needs at least 17 characters but reads only indices 0-13 (four `:hh` groups). add_node then puts the address into `"%s"` unescaped, so anything from index 14 on is SQL text: an injection | `ff:ff:ff:ff:ff"zz` is accepted; in the INSERT its quote ends the MAC token after `ff:ff:ff:ff:ff`. `ff:ff:ff:ff:ff", 1, "x"); DROP TABLE nodes; --` is accepted too and appends a DROP of the whole table (`MacFinding.InjectionMacSplitsChecks`, `MacFinding.InjectionMacTokenReads`) | Exactly 17 characters with five `:hh` groups, the format the comment at src/sql.c:31 gives; such an address holds no quote | high; not executed | `MacFinding.AsWrittenCheckLetsQuoteThrough` | `MacFinding.CheckMacAddressStrict` |

`Sql.Connection.AddNode` keeps the check as written, as the code has it. `MacFinding.WellFormedMacInsertReadsBack` proves that the INSERT reads back correctly for every address the corrected check accepts.
