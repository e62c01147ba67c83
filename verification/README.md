# Verification of opennap

opennap is a linked Napster server: one single-threaded process per host, hand-written lists
and hash tables inside, and a server-to-server protocol that makes a tree of such processes look
like one. This project models its logic in Dafny 4.11 and proves what the server relies on.
`dafny verify dfyconfig.toml` checks all of it.

The modules follow the components of the server.

- **Search across servers.** `PendingSearches` is one server's table of searches that wait for
  their peers, with the handlers of `search.c` proved equal to functions. `SearchLifetimes` runs it
  through arbitrary events, disconnects and timeouts included. `SearchTree` is one search as a
  convergecast on a rooted tree; `Orientation` hangs the tree of links from any server;
  `SearchCluster` lets a whole cluster run the real handlers with any number of searches, shows that
  each search id by itself follows `SearchTree`, and carries its theorems over.
- **The whole of a search.** `WholeSearch` joins the cluster, the requests and the file index: what
  servers answer is what their own databases hold for the request that reached them, and nothing the
  user asked for is missing when he is told the end. `HomeSearch` shows which searches go further
  than the server they have come to, and `ResultLimits` how many results they bring on the way.
- **What a search request says.** `Arguments` is the packet reader and the numbers in packets,
  `QueryText` reads and prints requests, `QueryMeaning` says which clauses are understood and what they
  ask for, `QueryForwarding` shows what survives printing and reading, once or over any number of hops.
- **File index.** `Tokens` cuts names into words and matches them, `FileIndex` is the inverted index
  with its five-bit reference counters, `FileDb` the handlers around it with all totals and the
  garbage collector, `FileSearch` the scan of the smallest bin.
- **Channels.** `Channels` is the doubly stored relation between users and channels with its
  invariant; `ChannelTable` has the handlers, `Rollover` the names tried when a channel is full.
- **Bytes.** `Md5`, `Base64` and `Passwords`; `Framing`, `SendQueue`, `Receiver` and `Delivery` for
  messages on the wire.
- **Network.** `Links` is the sweep over the link table, `NickMerge` two servers that link up.
- **Small parts.** `HashTable`, `Glob`, `Timers`, `Flood`; `Text`, `Bytes` and `Options` are shared.

Lists and tables that the server changes in place are fields of classes that methods reassign; each
such method is proved against a function of the old state, and lemmas about these functions carry
the invariants. A pointer into a string is an offset, a pointer to a record, user or channel is the
number or hash key it is found under. Callbacks, clocks, random bytes, the sizes of partial reads
and writes and the order of a hash table are parameters or arbitrary choices.

Some properties hold only under a condition, which is then stated as an if-and-only-if, in most
cases beside a concrete input for which they fail: an empty search word is lost on the way to a peer
unless it comes last, and a range bounded on both sides loses its upper bound (`QueryForwarding`);
a link with a port of 65535 is mistaken for a marked one (`Links`); two logins with one timestamp stay different on two servers, although a
comment at login.c:434-436 says that both clients are killed when there is no timestamp
(`NickMerge`); a timer without a positive interval and without an end keeps `exec_timers` from
returning (`Timers`); flood control does not limit anything once there are more commands than
seconds, unless there are no seconds at all, when it lets one command a second through (`Flood`);
the byte count of MD5 forgets carries over pieces of 2^32 bytes and more (`Md5`); and the totals of
shared files are no longer sums over the users once a user's 16-bit number of files wraps around or
a peer reports about a user of this server (`FileDb`); the index stays sound all the same. The name
tried behind a full predefined channel is not the name of a channel when the full one has no
character above the digits (`Rollover`), and a flooder whose nick does not fit the buffer for it is
reported every time (`Flood`). A sample rate of 22050 is stored as 24000, because the table of allowed
rates is out of order (`FileDb`), a file of 4294967295 bytes looks dead and is never found, and a
request for 0 results is one without a limit (`WholeSearch`).

## Model

| member | source | states |
|---|---|---|
| WholeSearch.NothingIsMissed | search.c:459-853 | From the text a user sends to the last result: when he is told the end, and the results told him or dropped at his server are fewer than his request and each server allow, then every server that is not behind one that does not know his nick, and is not such a server, has looked the request up; when no word of the request is empty, every living file there that its ranges, its type and the rest of the callback accept and whose indexed words include all words of the request this server does not filter has been told him, but for those whose owner his server did not know; nothing has been told but living files of servers that looked the request up, accepted by the callback, whose names contain every word of the request that no server filters |
| WholeSearch.KeptFileIsTold | search.c:459-853 | A file that such a server shares all along is told by then, to the user himself when his server knows all owners |
| WholeSearch.RequestsComeBack | search.c:655-763 | In every run, as long as results are missing, each request of a search on a link, written as a line behind the nick and the id, is read by the two next_arg calls of the receiver as the nick, the id and the request that were sent |
| WholeSearch.CallComesBack | search.c:655-763 | So is any printable request line |
| WholeSearch.ReadCall | search.c:733-751 | The two next_arg calls of remote_search and what is left of the packet behind them |
| WholeSearch.GenerateSearchId | search.c:408-422 | A search id is eight capital letters, so one word of a printable line |
| WholeSearch.LookUp | search.c:461-660 | Reading a request, searching the database and printing the request for the peers give, on every sound database, an answer as these theorems suppose: living files of this server only, none of the user's own, none when both are behind firewalls, of the kind and in the ranges asked for, with all words in their names; not more than the limit if that is positive, nor than Max_Search_Results then; and all of them that are indexed under the words when the limit is not reached |
| WholeSearch.AnswerGives | search.c:48-114 | The same of any answer to a request that is understood |
| WholeSearch.CappedIff | search.c:304-349 | A server with a positive Max_Search_Results keeps to it if and only if the limit is positive or there is no more to find |
| WholeSearch.MissingIsAsked | search.c:655-660 | A peer reads the request it is sent as one for the same kind, not LOCAL, and for exactly the results that are missing, or as many as it gives anybody |
| WholeSearch.ShareAndLookUp | add_file.c:198-261 | A file that has just been shared is found by a search for words it is indexed under and exactly its rates, with room for all results, if and only if both rates are allowed ones, the sample rate is not 22050, and the size modulo 2^32 is not 4294967295 |
| WholeSearch.SharedIsFound | search.c:48-76 | The same of any database that holds such a record |
| WholeSearch.PeerServes | search.c:733-763 | A server asked by a peer, at whatever distance from the user and with whatever filter, finds all the user asks for as long as results are missing, gives nothing else, and asks its own peers for the same |
| WholeSearch.RunReaches | search.c:598-685 | In every run, each server the request has come to has looked it up completely or does not know the nick, each request on a link still asks for all the user asks for and for as many results as may still come, and every result made is one of a server that looked the request up |
| WholeSearch.SpreadMoves | search.c:655-660 | In the convergecast a server that has been reached and knows the nick has asked everybody behind it, after every move |
| HomeSearch.AnsweredAtHome | search.c:585-662 | In every run of the cluster: when the text of a search says LOCAL, or the origin alone has found as many results as it asks for, no link ever carries a message about it, no table an entry, and the user is told files of the origin only, with the end, in the move that begins the search |
| HomeSearch.AskedAbroad | search.c:598-662 | A search that is neither and has peers to go to is sent to every one of them, with one entry that waits for all; the user is told the results so far and no end |
| HomeSearch.EnoughIsEnough | search.c:598-763 | A server asked by a peer that finds as many results as it is asked for, or reads LOCAL, sends no request and makes no entry; it answers with its results and its end |
| HomeSearch.SearchSays | search.c:598-696 | For any server and asker: the condition under which others are asked, and table, packets to every peer and packets to the client in both cases |
| HomeSearch.StaysHome | search.c:598-696 | A search that is over when it begins leaves nothing in any later state of any run |
| ResultLimits.NoMoreOnTheWay | search.c:655-660 | In every run, whatever the limits of the servers: what all servers on the way from the user to any server that has looked the request up find is together no more than the user asks for, when he asks for a positive number |
| ResultLimits.AskedForMissing | search.c:655-763 | Each server on the way is asked for no more than is still missing after all servers before it |
| ResultLimits.HasLineage | search.c:655-763 | Every look-up goes back, request by request, to the one that began the search |
| SearchCluster.EndIsFinal | search.c:598-685 | Any number of searches, begun at any servers of a tree of linked servers and interleaved in any way over FIFO links: the user who began a search is told its end at most once and after every result; at that moment no server has an entry for it, no link carries a message about it, every request sent for it over a link was answered by exactly one end, and every result any server produced for it has reached the origin, which drops it only when it does not know its owner |
| SearchCluster.OnlyTheAskerIsTold | search.c:676-685 | In every run whatever a server sends to a client about a search goes to the user who began it, at the server where he began it |
| SearchCluster.QuietMeansEnded | search.c:821-853 | A search about which no message is under way anywhere has been ended towards its user: no run gets stuck |
| SearchCluster.SearchIsFinite | search.c:734-853 | The messages taken for one search are at most two per server plus, for each result, the depth of the tree; results go astray only at an origin that does not know their owner |
| SearchCluster.MoveSimulates | search.c:734-853 | Every message a server handles moves the search it is about exactly as one move of the abstract convergecast, whatever else is in the tables and on the links |
| SearchCluster.OtherView | search.c:698-730 | Handling a message about one search leaves every other search as it is |
| SearchCluster.BeginStarts | search.c:689-696 | A new search starts as the convergecast on the tree hung from the server where it began |
| SearchCluster.RunOfOneSearch | search.c:461-685 | Seen through one search id, every run of the cluster is a run of the convergecast with as many moves as messages about that id were taken |
| SearchTree.MoveHolds | search.c:821-853 | The invariant of the convergecast (who has been asked, who still owes an answer, what each link carries) survives every move |
| SearchTree.MoveBalances | search.c:767-816 | Each result made is at the user, gone astray, or on its way, exactly once, after every move |
| SearchTree.EndComesLast | search.c:837-853 | In every run on a rooted tree the end reaches the user after all results, with all entries removed and all links empty |
| SearchTree.EveryRunEnds | search.c:598-685 | A run has bounded length, and no move is possible exactly when the user has been told the end |
| SearchTree.SomebodyCanMove | search.c:821-853 | While a server waits, there is a message that can be taken on a link of the branch behind it |
| SearchTree.BranchIsSettled | search.c:837-853 | Once any server has answered with its end, no entry and no message is left in the whole branch behind it, and each server there has answered every request |
| SearchTree.KnownResultsArrive | search.c:793-816 | No result is dropped when the origin knows all owners |
| Orientation.Reroot | search.c:598-685 | The links of the cluster, hung from any of its servers, form a rooted tree with the same links |
| PendingSearches.Searches.FindSearch | search.c:698-730 | The list scan returns the entry of that id, ends and drops every expired entry in front of it and keeps all others in order |
| PendingSearches.FindIs | search.c:698-730 | The scan stops at the first entry of the id; in front of it exactly the entries that have waited longer than the timeout are gone, each with an end to its requester, and behind it nothing changes |
| PendingSearches.Searches.SearchInternal | search.c:598-685 | Local results first; an entry is made and all other servers are asked exactly when results are missing, the search is not local and there is another server; otherwise the end is sent at once |
| PendingSearches.Searches.RemoteSearchRequest | search.c:733-763 | Malformed and unknown-user requests are answered with an end when they carry an id; the others are searched |
| PendingSearches.Searches.RemoteSearchResult | search.c:766-816 | A result line of eight fields is passed to the requester, to a client only when its owner is known; any other line is dropped |
| PendingSearches.Searches.RemoteSearchEnd | search.c:821-853 | The last end removes the entry and ends the search towards its requester; any other end is counted |
| PendingSearches.Searches.CancelSearch | search.c:858-891 | A closing connection loses its own searches; a closing server counts as one answer less for all others, ending those that waited for it alone |
| PendingSearches.CloseIs | search.c:858-891 | Which entries stay and which ends are sent when a connection closes |
| SearchLifetimes.AlwaysSound | search.c:600-662 | After any events, disconnects and timeouts included, every pending search has 0 <= count < numServers <= the number of linked servers and belongs to a live connection |
| SearchLifetimes.EveryRequestEndsOnce | search.c:698-730 | Over every run, each end asked for has been sent once, or is still owed by an entry of the table, or went with the connection that asked; the last only if that connection was closed |
| Tokens.Tokenize | search.c:142-190 | The pointer loop yields the word list of its specification |
| Tokens.TokenizedIsWords | search.c:142-190 | The tokens are, each once, the lower-cased maximal runs of letters, digits and apostrophes that are not filtered, and the empty word when the string ends in a gap of two or is a single non-word character |
| Tokens.Match | search.c:272-302 | A file matches exactly when every token is non-empty and occurs in its name, letters compared ignoring case |
| Tokens.WordsOccur | search.c:142-190 | Every indexed word of a name occurs in that name |
| FileIndex.CounterFits | opennap.h:304 | In every sound index a record has at most 31 references (its owner and 30 bins), so the five-bit counter never wraps |
| FileIndex.AddedKeeps | add_file.c:23-68 | Entering a record under one more of its words keeps the accounting of all bins and counters |
| FileIndex.IndexingDone | add_file.c:92-118 | With all its words entered, the index is sound again |
| FileIndex.OwnerLetsGo | search.c:192-208 | When the owner lets go, the record stays, marked dead, while a bin holds it, and is freed otherwise |
| FileIndex.BinLetsGo | search.c:219-254 | Unlinking a dead record from a bin keeps all counters exact |
| FileIndex.ReapedIsFreed | search.c:192-208 | A dead record leaves memory exactly when the last bin lets it go |
| FileIndex.IndexWordsOk | add_file.c:92-106 | At most 30 distinct words index a file: the last ones, when there are more |
| FileDb.Database.AddFile | add_file.c:198-261 | The outcome in the order of the checks (too many files, name too long, 32-bit library overflow, a name the user shares already, case ignored, done); when done the record has the name, the user, the size modulo 2^32, type mp3 and the rates given if they are allowed ones, with 22050 as the exception, and else the next allowed ones or the first; the words of the name under the filter of this moment are its index entries; the user's numbers and all five totals go up by it; every other record is as it was; the index stays sound in every case, and the totals stay sums exactly when the 16-bit number of files does not wrap |
| FileDb.Database.RateToMask | add_file.c:164-194 | The position of the first allowed rate that is not below the given one, or of the very first for a rate above them all |
| FileDb.AllowedRate | add_file.c:164-194 | In a table that rises an allowed rate is kept, any other up to the greatest becomes the next allowed one, and one above becomes the least |
| FileDb.SampleRateKept | add_file.c:21 | The table of sample rates does not rise: it keeps a rate if and only if it is an allowed one other than 22050, which is stored as 24000 and never chosen |
| FileDb.Database.RemoveFile | remove_file.c:11-50 | The outcome, and when done the record lets go and every total goes down by this file, in the widths of the fields; every other record is as it was, and the bins are left to the collector; index and totals stay sound |
| FileDb.Database.RemoveUser | free_user.c:45-49 | A departing user takes his share out of the totals and lets go of all his files; index and totals stay sound |
| FileDb.Database.UserSharing | add_file.c:352-400 | A report changes the totals by the numbers it gives while the user keeps 16 bits of the number of files; the index stays sound, and the totals stay sums over the users, and the shares those of the file tables, if and only if the number fits 16 bits and a report about a user of this server repeats what is so already |
| FileDb.ReportOk | add_file.c:374-398 | No report touches the index |
| FileDb.ReportBalances | add_file.c:374-398 | The totals after a report are sums again if and only if it is such a one |
| FileDb.ReportAboutClient | add_file.c:374-398 | A client who shares nothing and a report of seven files, after which they are not |
| FileDb.Database.LoadFilter | filter.c:24-59 | A filter loaded while the server runs leaves index and totals sound: every record stays indexed under the words it had when it was shared |
| FileDb.Database.CollectBin | search.c:219-254 | One bin keeps its living files in order with the right count, or disappears when there is none |
| FileDb.Database.GarbageCollect | search.c:257-270 | After collection every bin is what remains of it, empty bins are gone, memory holds exactly the records somebody owns, and index and totals are sound |
| FileDb.AllDeadGone | search.c:257-270 | A sound database whose bins hold only living records has no dead record in memory |
| FileDb.LiveInOrder | search.c:219-254 | What is kept of a bin is kept in order |
| FileDb.InsertOk | add_file.c:71-131 | Sharing a file keeps the index sound, with no hypothesis on the result: counters are exact, and every record is indexed under the words of its name |
| FileDb.InsertBalances | add_file.c:107-131 | It keeps the totals sums over the users, and the shares sums over the file tables, if and only if neither number of its user wraps |
| FileDb.RemoveOk | remove_file.c:37-49 | Unsharing a file keeps the index sound |
| FileDb.RemoveBalances | remove_file.c:37-49 | It keeps the totals right as well |
| FileDb.LeaveEnd | free_user.c:45-49 | A departure keeps the index sound once the last file is let go |
| FileDb.CollectReap | search.c:233-246 | One turn of the collector on a dead record keeps the index sound |
| FileDb.CollectBalances | search.c:257-270 | Collecting touches no total |
| FileSearch.FdbSearch | search.c:304-349 | The scan of a smallest bin in order, cut off at a positive hit limit |
| FileSearch.HitsInOrder | search.c:333-347 | Hits come in the order of the bin |
| FileSearch.Search | search.c:304-349 | On a database its handlers have brought about, whatever they did and whatever was reported: no hit twice, each a living accepted file whose name contains every token, no more than a positive limit; and when the limit is not reached every living accepted file all of whose tokens are among the words its name was indexed under |
| FileSearch.SearchIsBracketed | search.c:304-349 | What a scan of a smallest bin finds lies between these two brute-force answers, each record at most once |
| FileSearch.InItsBins | add_file.c:92-118 | A living file is in the bin of a word if and only if the word is one of those its name was indexed under |
| FileSearch.MissingBinMissesNothing | search.c:320-327 | When some token has no bin, the empty answer lies between the two brute-force answers as well |
| FileSearch.EmptyTokenFindsNothing | search.c:272-302 | A search with an empty token finds nothing |
| HashTable.HashIgnoresCase | hash.c:38-52 | Keys equal ignoring case share a bucket |
| HashTable.LookupInChain | hash.c:75-92 | The first entry of its bucket chain is the newest entry of that key in the whole table |
| HashTable.RemoveInChain | hash.c:95-117 | Removing from the chain removes the newest entry of that key and nothing else |
| HashTable.TableOfStacks | hash.c:55-117 | The table is a case-insensitive map of stacks: adding pushes, removing pops, other keys keep theirs |
| HashTable.BucketsHoldEverything | hash.c:144-162 | Bucket after bucket every entry is met exactly once |
| HashTable.Hash.Add | hash.c:55-72 | The chains stay those of one entry list with the new entry in front; dbsize is its length |
| HashTable.Hash.Lookup | hash.c:75-92 | The newest entry of the key, ignoring case |
| HashTable.Hash.Remove | hash.c:95-117 | The newest entry of the key goes; dbsize follows |
| HashTable.Hash.ForEach | hash.c:144-162 | Every entry is visited once even when the callback removes the entry it is given |
| Glob.GlobMatch | glob.c:13-54 | 1 exactly when the string splits along the pattern: a run of wildcards that starts with * takes any string (not the empty one at the end of the pattern), any other ? one character, letters match ignoring case |
| Glob.MatchesIffSplits | glob.c:13-54 | The right-to-left backtracking misses no split |
| Glob.OnlyTheEmptyPatternMatchesNothing | glob.c:13-54 | The empty string is matched by the empty pattern alone, so not by * |
| Md5.DigestOfPieces | md5.c:189-253 | For every message in any number of pieces of any size: the digest of sections 3.1 to 3.4 of RFC 1321 whenever the carries that were not counted are a multiple of 2^29, and in every case the code of the message with the length that was counted |
| Md5.ShortPiecesDigest | md5.c:210-253 | It is the digest of the RFC for every message whose pieces are shorter than 2^32 bytes |
| Md5.PiecesAccount | md5.c:286-288 | For pieces of any size the count, with the carries it has forgotten put back, is the number of bytes absorbed, modulo 2^64 |
| Md5.Context.ProcessBytes | md5.c:210-253 | After each piece, of any size, the chaining value is that of all whole blocks absorbed, the buffer (at most 64 bytes) is the rest of the message, and the count is the one that goes with the sizes of the pieces |
| Md5.Context.Drain | md5.c:226-236 | An overfull buffer absorbs its whole blocks and keeps the remainder in front |
| Md5.Context.ProcessBlock | md5.c:268-424 | The chaining value advances over the given blocks and the byte count by their length |
| Md5.Absorb | md5.c:290-415 | The 64 unrolled operations are the four rounds of RFC 1321 on one block |
| Md5.Context.Finish | md5.c:102-128 | Padding, counted length and final blocks of everything fed in; the digest of the RFC whenever the forgotten carries are a multiple of 2^29 |
| Md5.CarryIsExact | md5.c:286-288 | The carry test of the split byte count is right exactly for lengths below 2^32 or when precisely one carry (modulo 2^32) is due |
| Md5.TwoCarries | md5.c:286-288 | A length for which it is not: two carries are due and one is counted |
| Md5.LengthInBits | md5.c:119-122 | The two shifted words are the 64-bit length in bits if and only if the number of forgotten carries is a multiple of 2^29 |
| Md5.BlocksAppend | md5.c:268-424 | Absorbing blocks in two calls or in one is the same |
| Md5.Selected | md5.c:256-263 | The optimised selection function is the one of the RFC |
| Base64.Encode | util.c:245-291 | The encoder writes the letters of each group of three bytes and the padding |
| Base64.FourGroups | util.c:245-291 | The 24 bits of three bytes are cut into four groups of six, first byte first |
| Base64.EncodedFoo | util.c:245-291 | Three encodings of section 10 of RFC 4648 |
| Base64.Decode | util.c:306-339 | The decoder loop, and the texts on which it runs past the terminator |
| Base64.DecodeUndoesEncode | util.c:245-339 | For every byte string decoding undoes encoding, with all, some or none of the trailing = |
| Base64.EncodedIsBare | util.c:245-291 | The encoding is the letters followed by the padding of section 4 of RFC 4648 |
| Passwords.GeneratePass | util.c:369-393 | A record is 1, the salt drawn from the random bytes and the 22 letters of the salted digest |
| Passwords.CheckPass | util.c:341-367 | What a record and a password lead to, malformed records included |
| Passwords.AcceptedIff | util.c:342-367 | A password is accepted if and only if the record is 1, eight characters of salt and the base64 of the digest of salt and password, with commas between |
| Passwords.SaltedDigestIsMd5 | util.c:341-393 | The salted digest is the MD5 of salt and password for every password shorter than 2^32 bytes |
| Passwords.RecordAcceptsItsDigest | util.c:341-393 | A generated record, its == put back or not, accepts q exactly when the salted digests are equal |
| Passwords.SetThenCheck | util.c:341-393 | For every password and salt a generated record accepts its own password |
| Arguments.NextArg | util.c:179-204 | One argument, quoted or bare, and the rest of the packet |
| Arguments.ArgsArePrinted | util.c:179-204 | Arguments printed on one line are read back one by one |
| Arguments.DecimalComesBack | search.c:510-517 | Every 32-bit number printed in decimal is read back |
| QueryText.ReadRequest | search.c:459-596 | The clause loop of search_internal: defaults, token accumulation, limits, types, ranges and every way a request is refused |
| QueryText.GenerateRequest | search.c:366-406 | The printed request is one line of the arguments that describe it |
| QueryText.GenerateQualifier | search.c:351-359 | EQUAL TO, AT LEAST, AT BEST or nothing |
| QueryForwarding.ReadIsWellMade | search.c:459-596 | Every request that is understood has filtered lower-case tokens, a known type and 32-bit bounds |
| QueryForwarding.ForwardedIs | search.c:366-596 | A printed request read by a peer is the same request but for an inner empty token, dropped upper bounds and the cap on results |
| QueryForwarding.ForwardOnce | search.c:653-660 | The same for the two methods one after the other, asking for the results still missing |
| QueryForwarding.WordsForwarded | search.c:376-382 | The peer sees only tokens of the request and all non-empty ones; it sees all of them exactly when no empty token stands before the last |
| QueryMeaning.UnderstoodIff | search.c:485-596 | A request is understood if and only if it is a list of clauses, each spelt in capitals or not: FILENAME CONTAINS, MAX_RESULTS, TYPE, LINESPEED, BITRATE, FREQ with an operator and a number, LOCAL |
| QueryMeaning.UnderstoodMeans | search.c:472-596 | It asks for all words together; for each of its numbers the last clause that says something decides, and without one the number of results is Max_Search_Results, the type mp3 and the ranges are unlimited |
| QueryMeaning.LimitIs | search.c:504-521 | No request asks for more than a positive Max_Search_Results; one without MAX_RESULTS asks for that many, one with a single such clause for its number or that many; a search is local if and only if a clause says LOCAL |
| QueryMeaning.NoLimit | search.c:344 | MAX_RESULTS 0 asks without a limit, whatever Max_Search_Results is |
| QueryForwarding.WordsSeen | search.c:142-190 | A peer with any filter of its own sees exactly the words it does not filter, and the empty one only when it comes last |
| QueryForwarding.InnerEmptyWordIsLost | search.c:376-382 | A request in which this happens: the clauses foo!! and bar |
| QueryForwarding.RangeForwarded | search.c:351-359 | A range is never narrowed, and accepts the same attribute values exactly when it is not bounded on both sides within them |
| QueryForwarding.UpperBoundIsLost | search.c:351-359 | A request in which this happens: bit rates from 128 to 192 |
| QueryForwarding.NoMatchIsLost | search.c:351-596 | However many hops a request travels, every server on the way wants each file the origin wants, and no more results than are missing |
| QueryForwarding.LaterHopsAgree | search.c:351-596 | An exact request means the same at every distance |
| Channels.SoundMeans | join.c:254-287 | In a sound state users and channels name each other on both sides or on neither, invitations likewise, and nothing names what is gone |
| Channels.LeftIs | part_channel.c:44-80 | Leaving keeps the invariant, removes just this membership, and destroys the channel exactly when a user made it and nobody else is on it |
| Channels.EnteredIs | join.c:254-287 | Entering keeps the invariant and adds just this membership, also on a channel created this moment |
| Channels.InvitedIs | channel.c:845-853 | An invitation is entered on both sides; no other invitation, no membership and no member list changes |
| Channels.MarkedIs | channel.c:938-978 | Voice and muzzle change the flags of this one member as they say and keep the relation sound |
| Channels.OpChangedIs | channel.c:417-477 | Making and unmaking an operator keeps the operator list and the member flags in step |
| Channels.OpChangesOnly | channel.c:416-476 | One nick is put on or taken off the operator list; the list is otherwise the same, and so are all flags but the operator's |
| Channels.DroppedIs | channel.c:577-590 | Dropping a registered channel destroys it, with all invitations to it, when it is empty and else makes it a user channel with the same members; no membership and no other channel changes |
| Channels.ClearedIs | kick.c:156-180 | Clearing removes exactly the members the sender may kick, keeps the others in order, and survives the destruction of the channel in the middle of the loop |
| Channels.QuitIs | free_user.c:26-43 | A departure removes the user from every list, destroys exactly the user-made channels he was alone on, and changes nobody else's memberships |
| ChannelTable.TriedIs | join.c:111-252 | At the first of the names that is not a full predefined channel a join is refused and changes nothing, or adds one membership, to the channel of that name; with no such name it changes nothing |
| ChannelTable.Directory.Judge | join.c:113-249 | The checks of join for one name: creation rights and names, level, operator, ban, invitation, limit |
| ChannelTable.Directory.Join | join.c:52-360 | He joins if and only if he may join channels at all and, of the channel at which the loop stops: it is there, he is not on it, has its level, and is a moderator or an operator of it or else not banned, invited if that is needed and in time for the limit; or it is not there, and he may make channels and the name is a valid one. Then he is on that channel, in front and with the operator flag exactly if he is one of its operators, his invitation is used up if it was needed, and nobody else and no other channel changes; the loop stops at the first name that is not that of a predefined channel with no room left for him |
| ChannelTable.JudgedMeans | join.c:113-249 | What one turn of the loop decides, in these terms |
| ChannelTable.Directory.Seek | join.c:113-249 | The loop of join comes to an end, at the first name that is not a full predefined channel; all names before it are |
| ChannelTable.FullNamesAreFew | join.c:216-246 | There are never more full names one after the other than channels, because the names differ |
| Rollover.NamesDiffer | join.c:233-245 | No two of the names made one from the other, as many as an int can count, are equal, case ignored |
| Rollover.Roll | join.c:231-245 | The scan back over the low characters at the end, atoi and the number that is printed give the next name |
| Rollover.RolledHasPrefix | join.c:233-245 | The next name is one of a channel if and only if this one has a character above the digits: ISDIGIT lets everything below them pass, the # included |
| Rollover.FirstRollovers | join.c:233-245 | #music is followed by #music1, #music9 by #music10, and #1 by a 1 without a # |
| ChannelTable.IsBanned | join.c:36-49 | Banned exactly when some mask matches nick!host as a glob pattern |
| ChannelTable.Directory.Part | part.c:13-57 | Parts the named channel of the user's list, case ignored, or refuses |
| ChannelTable.Directory.Kick | kick.c:27-118 | A kick happens if and only if both are on the channel, the sender has the level of the channel, and he has a higher level than the other, or the same as an operator of the channel, or is elite; then exactly this membership is gone |
| ChannelTable.Directory.ClearChannel | kick.c:27-181 | Whoever was on the channel still is, if and only if he is the sender or the sender has neither a higher level than he, nor the same as an operator of the channel, nor is elite; other channels keep their members |
| ChannelTable.Directory.ChannelDrop | channel.c:541-591 | Who may drop which channel, and the effect |
| ChannelTable.Directory.ChannelOp | channel.c:385-478 | Who may; then each valid nick given is on the operator list exactly when it was given the right, all others as before, the members' flags follow the list and nothing else of them changes, and a channel that gets an operator is kept for good |
| ChannelTable.Directory.ChannelInvite | channel.c:786-870 | An invitation happens if and only if the channel is invite-only, the sender has its level and is on it, and the other is logged in, not on it and not invited; and its effect |
| ChannelTable.Directory.ChannelVoice | channel.c:874-980 | Servers, moderators and operators of the channel may; then exactly the members named have or have not a voice, who gets one is no longer muzzled, and no other flag and nobody else changes |
| ChannelTable.Directory.ChannelMuzzle | channel.c:983-1055 | Servers, moderators and operators of the channel may, but nobody a user of higher level unless he is elite; then exactly this member is muzzled, without his voice, or is not, and nothing else changes |
| ChannelTable.Directory.MarkMember | channel.c:942-967 | The flags of one member change, nothing else |
| ChannelTable.Directory.AddUser | login.c:514-569 | A login on a free nick enters a user who is on no channel |
| ChannelTable.Directory.AddChannel | channel.c:16-112 | A predefined channel enters the table with nobody on it |
| ChannelTable.Directory.SetModes | channel.c:652-766 | What mode, limit, level and ban commands may change keeps the relation sound |
| ChannelTable.Directory.SetRank | level.c:135-146 | What level and muzzle commands may change keeps the relation sound |
| ChannelTable.Directory.FreeUser | free_user.c:12-43 | The loops over a departing user's channels and invitations |
| ChannelTable.Directory.FreeChannel | serverlib.c:162-184 | Everybody invited forgets the invitation to a destroyed channel |
| ChannelTable.Directory.PartChannel | part_channel.c:18-80 | The channel's side of a departure |
| Framing.DeframeInPieces | handler.c:438-560 | Reading may stop at any byte: the leftover in front of what comes next gives the same messages |
| Framing.WireComesBack | serverlib.c:16-30 | Framed messages are read back as sent, with the bytes behind them untouched |
| Framing.FrameHeader | serverlib.c:16-30 | The four bytes in front of a body: its length and the tag, low bytes first |
| Framing.ArrivedIsPrefix | handler.c:438-560 | What has arrived of a message sequence yields a prefix of it, every completely arrived message, and all of them at the end |
| SendQueue.Queue.Enqueue | buffer.c:43-79 | The bytes go behind what is pending, however they fall into chunks |
| SendQueue.Queue.Write | buffer.c:81-97 | Written bytes and what is left make up what was pending |
| SendQueue.Queue.Append | buffer.c:99-112 | Two queues become one |
| SendQueue.Queue.Size | buffer.c:114-123 | The number of pending bytes |
| SendQueue.Queue.SendCmd | serverlib.c:16-30 | Length, tag and body are queued as one frame |
| Receiver.Buffer.Dispatch | handler.c:247-303 | The terminator is written inside the allocation, stands while the handler runs, and is undone; nothing outside the packet changes |
| Receiver.Buffer.Process | handler.c:436-560 | Dispatches all complete messages and shifts the rest to the front; an unregistered connection gets no message dispatched but with one of nine tags, and ends at the first other one |
| Receiver.Buffer.ReceiveClient | handler.c:330-433 | Header and body in any number of reads, one message per call, every call makes progress; a client is cut off if a message announces more than the limit, and else only for a tag an unregistered one may not send |
| Receiver.Buffer.ReceiveServer | handler.c:312-329 | Whatever a link delivers is received, the buffer growing as needed |
| Delivery.Run | handler.c:305-561 | For every interleaving of sending, writing and arriving, in portions of any size, the messages dispatched are a prefix of those sent, and all of them once everything has been delivered |
| Delivery.NextHeader | handler.c:383-391 | The header at the end of what has arrived announces the length of the next message |
| Links.LinkTable.MarkLinks | server_login.c:445-466 | The recursion ends on every table, cycles included; it marks only links behind the host and leaves none of them |
| Links.LinkTable.RemoveLinks | server_login.c:469-493 | Exactly the links marked before or behind the host go, the others keep their order |
| Links.SurvivingIs | server_login.c:469-493 | What is left are the links neither dead nor behind the host, in their order |
| Links.LinkTable.ServerQuit | server_login.c:426-437 | The first link of that name goes with everything behind its peer |
| Links.RightIffLive | server_login.c:445-493 | Deleting exactly the reachable links, for every host, holds if and only if no link carries a port of 65535 |
| Links.GreatestPortStays | server_login.c:349-360 | A link for which this fails |
| Timers.ScheduledIs | timer.c:28-44 | The list stays sorted, ties in insertion order |
| Timers.RunIs | timer.c:79-103 | With positive intervals each due timer fires once, in list order, and the list afterwards is the timers as they have become |
| Timers.EndlessNeverStops | timer.c:79-103 | With a due timer of no positive interval and no end, the loop never comes to a head that is not due |
| Timers.EndsIffNotEndless | timer.c:79-103 | The loop comes to a head that is not due if and only if no due timer has no positive interval and no end |
| Timers.ZeroInterval | main.c:479 | A collector to be run every 0 seconds, for which it does not |
| Timers.RunIsAfter | timer.c:79-103 | What exec_timers leaves is the list after that many turns of its loop |
| Timers.TimerList.ExecTimers | timer.c:79-103 | Without such a timer the loop ends; what fires and what is left |
| Timers.TimerList.ScheduleTimer | timer.c:28-44 | The insertion loop |
| Timers.TimerList.AddTimer | timer.c:57-76 | A new timer is due one interval from now and takes its place in the list; one without events is not added |
| Timers.TimerList.NextTimer | timer.c:105-115 | The main loop never sleeps past a timer |
| Timers.FiresAtMost | timer.c:92-101 | A timer with k > 0 events fires at most k times and is gone exactly when it has |
| Timers.FiresExactly | timer.c:92-101 | For any calls in the order of time, however close, a timer fires k times if and only if there are k chances among them: one when it is due, each further one an interval after the one before; with k events it then fires exactly k times and is gone |
| Timers.FiresInList | timer.c:79-103 | Among other timers, added at any time, the callbacks of the only timer of its id run as often as that timer fires by itself |
| Timers.AddedFiresExactly | timer.c:57-103 | A timer added to a list runs exactly as often as it has events over every run with so many chances, and is then gone from the list |
| Timers.TimerList.Play | timer.c:57-103 | Any sequence of added timers and calls of exec_timers runs the callbacks of its specification |
| Flood.Client.Charge | handler.c:480-505 | The charge of one command, and the report of flooding unless the last one reported was the same |
| Flood.ReportsDiffer | handler.c:494-505 | No two reports in a row are about the same nick, when nicks have at most 63 characters |
| Flood.ReportedAgainIff | handler.c:494-505 | A nick is reported again at once if and only if it is longer than 63 characters |
| Flood.WindowBound | handler.c:485-489 | No window of T seconds holds more counted commands than ceil((T + Flood_Time) / step), which is Flood_Commands + ceil(T / step) when Flood_Commands divides Flood_Time |
| Flood.BoundIsMet | main.c:517-524 | For every setting and every T some run meets the bound |
| Flood.NoBoundWithoutStep | handler.c:489 | With more commands than seconds, and at least one second, any number of commands goes through at once |
| Flood.OneASecond | main.c:517-524 | With no seconds at all no window of T seconds holds more than T + 1 counted commands, however many Flood_Commands are |
| Flood.LimitedIff | main.c:517-524 | Windows of every length are limited, over all runs, if and only if Flood_Time is 0 or at least Flood_Commands; the same for one instant |
| Flood.NeverShutLong | main.c:517-524 | A client is never kept waiting longer than a step after its last command |
| NickMerge.Exchange | login.c:431-470 | After the exchange in any interleaving, new logins included, each nick is with its earlier login on both servers; the two tables are equal if and only if no nick has two different logins with one timestamp |
| NickMerge.TablesAgree | login.c:431-470 | The tables agree exactly when no shared nick has equal timestamps, and keep the earlier login |
| NickMerge.SameSecond | login.c:434-436 | Two logins for which they do not agree |
| NickMerge.Server.SynchServer | synch.c:173-187 | Every user is told to the new peer once, in any order |
| NickMerge.Server.ReceiveLogin | login.c:431-470 | The collision branch: a strictly earlier login replaces the one that is known, which is announced as killed to the other peers; any other is dropped |
| NickMerge.Act | login.c:563-574 | Any step of either server keeps every own login told or on its way exactly once |

## Left out

- Sockets, select, DNS, signals, files, configuration and startup: reads and writes are arbitrary portions of byte streams.
- zlib on server links: the compressed link is a FIFO pipe that delivers the bytes unchanged.
- Out-of-memory branches, logging, notices to operators and moderators, message of the day, statistics.
- Machine-word wrap of Num_Files and Local_Files, and rounding of Num_Gigs, a double; a user's own 16-bit and 32-bit counts are modelled.
- RESUME, the second index it adds by file hash, and EMAIL: both are off by default.
- Users' nicks, ports and speeds, which the callback of a search tests: WholeSearch has them as what each server knows, constant over a run.
- WholeSearch.GenerateSearchId: ids are drawn at random; that no two searches under way have the same one is supposed.
- Memory blocks: output chunks, bin nodes and hash entries are values in sequences, so aliasing between them and the memory pool are not modelled.
- Fixed-size text buffers (Buf, chanbuf, output of snprintf) are taken to be large enough.
- SearchCluster.EndIsFinal: runs without disconnects and timeouts, because cancel_search may end a search early, and without malformed requests from peers; SearchLifetimes covers all three on one server.
- WholeSearch.NothingIsMissed: runs without disconnects and timeouts, as for SearchCluster.EndIsFinal, and searches of which some word is filtered by no server; the request is a field of its message, and RequestsComeBack shows that its line is read as that field.
- FileDb.Database.LoadFilter: reading the filter file and trimming its lines; the filter is a parameter.
- FileDb.Database.AddFile: splitting the line into its six arguments, and the other two ways to share files, share_file and add_directory, which end in the same insert_datum.
- FileDb.Database.RemoveUser: the moment between zap_local_user's change of connection class and its effect on Local_Files.
- md5_stream, which only divides a file into pieces.
- Base64.Decode: characters beyond the lookup table of 128 entries count as outside the alphabet.
- ChannelTable.Directory.Join: rollover names longer than the buffer of 256 bytes, and the size given to snprintf there, which is taken from the length of another buffer; the sum of 0x7fffffff and 1 is taken to wrap.
- ChannelTable.Directory.AddChannel: a channels file that lists an operator or a channel twice.
- ChannelTable.Directory.AddUser: everything of a login but the new entry of the table.
- ChannelTable.Directory.SetModes: how the mode, limit, level and ban commands come to the new values, and who may give them.
- ChannelTable.Directory.SetRank: how the level and muzzle commands come to the new values, and who may give them.
- channel_mode's relay to peers, topics, bans with reasons and time limits, and the texts sent to members: only the state of one server is modelled.
- Channel state between servers (joins, levels and limits with timestamps): equal stamps are an admitted open point of the source.
- Receiver.Buffer.ReceiveClient: end of file and read errors, which end the connection.
- NickMerge.Exchange: departures, ghosts (a second login from the same address) and logins refused for other reasons while two servers exchange their users; more than two servers.
- Timers.TimerList.ExecTimers: callbacks that add timers themselves (Play adds them between calls), and a time that differs from Current_Time.
- Links: link_info, which appends what it is told with out-of-range ports replaced by 0.
- Ping, private messages, announcements, redirection and the other one-field handlers.
