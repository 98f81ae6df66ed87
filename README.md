# mailretriever, modelled in Dafny

This project models one run of the unread-mail notifier in `script.rb`. The run does four things:

- It scans the unread listing of every configured mail account.
  - It counts the messages whose ids were not unread at the last run.
  - It stores the current unread ids as the account's `past_emails`.
  - It tallies every unread message in a per-run sender table keyed by `"mailbox@host"`.
- It decides whether to send a text. The answer is yes when an important contact wrote, or when some account has more new unread messages than the ceiling `max_unread_emails` allows.
- If it sends, it composes the text body:
  - `"{S} new message!\n\n"`;
  - one `"{label} has {n} unread emails\n"` line per account;
  - `"{N} important emails"`.
- After sending, it zeroes the unread total of every account above the ceiling.

The modules follow the pieces of the script.

- `Decimal`: the decimal rendering of counters, as in `"#{n}"`, with its reading direction.
- `SenderTable`: the sender table `@from` (`Hash.new(0)`) as a `map<string, nat>`. A missing key reads as 0. Sums over keys do not depend on order.
- `Scan`: the specification of `get_unread_mail` as functions of the unread listing.
- `Decision`: the specification of `send_text?` and of the reset in `send_text`.
- `Message`: the specification of `create_message` as a string. It also reads the text back into its lines and numbers.
- `Retriever`: the imperative model.
  - `Account` is a class with mutable `pastEmails` and `unreadTotal`.
  - `MailRetriever` holds the accounts, the configuration and the mutable sender table `from`.
  - Its methods are `GetUnreadMail`, `CreateMessage`, `ShouldSendText`, `SendText` and `Run` (for `main`). Each is proved against the specification functions above.

A mailbox's unread listing is a parameter: a sequence of `Envelope(id, mailbox, host)` records in the order the server returns them. `Run` receives one listing per account.

`main` overwrites each account's unread total with this run's count of new messages; totals are not accumulated across runs (`Retriever.MailRetriever.Run`, `Retriever.MailRetriever.ScanAccounts`).

## Model

| member | source | states |
|---|---|---|
| Decimal.NatToStringRoundTrip | script.rb:66 | Reading back the decimal text that interpolation writes for a counter gives the counter again. |
| Decimal.NatToStringInjective | script.rb:66 | Different counters are written as different texts. |
| Decimal.LeadingNumberOf | script.rb:66 | A counter written in front of a non-digit text is read back as exactly that counter. |
| SenderTable.BumpFacts | script.rb:40 | `@from[k] += 1` adds `k` as a key and raises its entry by one, starting from the default 0. Every other entry stays as it was. |
| SenderTable.KeySumRemove | script.rb:71 | The sum over the table's entries does not depend on which key the hash iteration visits first. |
| SenderTable.BumpTotal | script.rb:40 | One more tallied message raises the total of the table by exactly one. |
| SenderTable.BumpImportantSum | script.rb:40 | One more tallied message raises the important sum by one exactly when its sender is an important contact. Otherwise the sum is unchanged. |
| Scan.NewCount | script.rb:33-43 | The count of new messages is at most the length of the listing. |
| Scan.Ids | script.rb:34-44 | The returned id list has one entry per listed message, in listing order. |
| Scan.NewCountIsNewPositions | script.rb:38-43 | The new count equals the number of listing positions whose id is not among the previous `past_emails`. |
| Scan.NewCountZeroIff | script.rb:38-43 | Nothing is new if and only if every listed id was already among `past_emails`. |
| Scan.NewCountAllIff | script.rb:38-43 | Everything is new if and only if no listed id was among `past_emails`. |
| Scan.RescanIsQuiet | script.rb:38-44 | Scanning the same listing again, with the returned ids as `past_emails`, finds 0 new messages. |
| Scan.TallyCounts | script.rb:38-40 | After the scan, each sender's entry has risen by the number of listed messages from that sender, new or not. No other entry changes. The keys gained are exactly the listed senders. |
| Scan.TallyTotal | script.rb:38-40 | The scan raises the table's total by the length of the listing. |
| Scan.TallyImportant | script.rb:38-40 | The scan raises the important sum by the number of listed messages from important contacts. |
| Scan.TallyAppend | script.rb:90-96 | Scanning one account after another into the shared table is the same as scanning their listings joined. |
| Decision.AnyOverThreshold | script.rb:81 | True exactly when some account's total is strictly above the ceiling. |
| Decision.AtCeilingIsQuiet | script.rb:81 | Totals equal to the ceiling, with no important sender, do not trigger a text. |
| Decision.ResetTotals | script.rb:57 | Each total above the ceiling becomes 0 and every other total stays. The length and order of the totals are kept. |
| Decision.ResetClearsThreshold | script.rb:57 | After the reset no total is above a non-negative ceiling. |
| Decision.ResetIdempotent | script.rb:57 | Applying the reset a second time changes nothing. |
| Decision.NegativeCeilingStaysOver | script.rb:57 | With a negative ceiling, every reset total is still above it. |
| Message.MessageLines | script.rb:63-73 | When no label holds a newline, the message splits into exactly these lines: the header, an empty line, one line per account in order, and the important-count line. There is no trailing newline. |
| Message.MessageReadsBack | script.rb:64-72 | The message has one line per account plus three. Its first line starts with the sum of the unread totals. Its last line starts with the important count. |
| Message.OneImportantMessage | script.rb:63-73 | The exact text for one account with one new message from an important contact. |
| Retriever.Account.constructor | script.rb:5-7 | An account record holds the given connection data, label, stored ids and unread total. |
| Retriever.MailRetriever.constructor | script.rb:9-19 | A run starts with the loaded accounts and configuration, and an empty sender table. |
| Retriever.MailRetriever.GetUnreadMail | script.rb:32-49 | Returns the new count and the listed ids. Every listed message is tallied in the sender table. |
| Retriever.MailRetriever.CreateMessage | script.rb:63-73 | The message is the composed text for the accounts' labels and totals and the important sum of the sender table. |
| Retriever.MailRetriever.UnreadCount | script.rb:64-65 | Returns the sum of the accounts' unread totals. |
| Retriever.MailRetriever.AccountLinesText | script.rb:68 | Returns the account lines, one per account in order. |
| Retriever.MailRetriever.ImportantCount | script.rb:70-71 | Returns the sum of the sender-table entries whose key is an important contact. |
| Retriever.MailRetriever.ShouldSendText | script.rb:79-83 | The answer is true if and only if some key of the sender table is an important contact, or some account's unread total is strictly above the ceiling; it equals `Decide` on the accounts' totals. |
| Retriever.MailRetriever.ResetCounters | script.rb:57 | Each account's total becomes the reset of its old total. Stored ids are unchanged. |
| Retriever.MailRetriever.SendText | script.rb:54-58 | The message is composed from the state before the reset. Then only the totals above the ceiling are zeroed. |
| Retriever.MailRetriever.ScanAccount | script.rb:91-95 | The account's total is overwritten with the new count, not added to. Its stored ids become the listed ids. The sender table counts the listing. |
| Retriever.MailRetriever.ScanAccounts | script.rb:90-96 | After the loop:<br>- every account holds its own listing's ids and new count;<br>- the sender table has counted all listings in account order. |
| Retriever.MailRetriever.Run | script.rb:89-98 | A text is produced only when the decision over the scanned state is true. When it is, the message is composed from the scanned totals and those totals are reset. When it is not, the scanned totals stay and no message is produced. |
| Retriever.RunDecision | script.rb:79-83 | From the empty table of a fresh run, the decision is true exactly when some scanned message came from an important contact or some count is above the ceiling. |
| Retriever.RunImportantCount | script.rb:70-71 | From the empty table of a fresh run, the important count in the message is the number of scanned messages from important contacts. |

## Left out

- The IMAP session is not modelled: connect, login, select, search, fetch, logout and disconnect (script.rb:35-39, 46-47). It is network I/O. Each mailbox's unread listing is an input sequence of `(id, mailbox, host)`.
- Message ids are modelled as `nat` and treated as stable between runs. The IMAP sequence numbers that `search` returns can shift between sessions; this is not modelled.
- The Twilio client and the SMS call are not modelled (script.rb:2, 21, 56). This is a foreign library and a network call. `SendText` returns the message body in their place and has no other effect besides the reset. A send that fails raises at script.rb:56, which skips the reset and the write-back of the account file. The model's `SendText` always resets, so it does not show that path.
- YAML loading of the accounts and the configuration, and the write-back of `accountNames.yaml`, are not modelled (script.rb:9-17, 99). This is file I/O through an external library. They are the constructor's parameters and the state after `Run`.
- The top-level call `main` (script.rb:103) is not modelled.
- The hash iteration order of `@from` is not modelled. Neither the sum nor the decision depends on it. The loops visit keys in an arbitrary order, chosen with `:|`.
- Missing data in the listing or account file is not modelled. Examples are a message envelope with no sender, or a `nil` `past_emails`, both of which make the Ruby code raise. Envelopes always have a sender here, and stored ids are always a list.
- `unreadTotal` is a `nat`, as every value the code stores there is a count.
- Retriever.MailRetriever.ScanAccounts: requires every account record to appear once in the list (`Valid`), and so do `ResetCounters`, `SendText` and `Run`; the constructor demands it. A YAML alias in the account file can load the same `Account` object twice, and then script.rb:90-96 scans it twice, the second scan storing 0 new messages against the first scan's ids. The model does not capture that aliasing.
- Decision.ResetClearsThreshold: requires a non-negative ceiling. With a negative `max_unread_emails` the reset sets totals to 0, which is still above the ceiling (`Decision.NegativeCeilingStaysOver`).
- Ruby's in-place `message << …` is modelled as reassigning a `string` variable. Nothing else holds the string, so no aliasing is lost.
- The three loops of `create_message` are the helper methods `UnreadCount`, `AccountLinesText` and `ImportantCount`. The account lines are built apart and then appended after the header.
