# IonFar SharePoint migration and synchronisation — a Dafny model

IonFar is a C# library that keeps a SharePoint site in step with a code base.
It has two engines, and this project models the core of both.

- **The Migrator** runs migrations against a site. A migration is code compiled into an
  assembly or a PowerShell script on disk. The Migrator collects the migrations its
  providers offer and removes those a journal says were already executed, matching names
  without regard to case. It then applies the rest in order. Each success is recorded in
  the journal. The first failure stops the run and is reported. Journals are kept in the
  property bag of the site collection's root web, or not at all (the null journal).
- **The Synchronizer** and the **FileUploadService** upload local files to the site.
  Before uploading a file they compare its hash with the hash a hash provider last
  recorded for it. For a file whose hash changed they:
  - run it through the configured preprocessors (URL tokens, variable substitution);
  - check it out where the library requires it;
  - upload it, then check it in, publish it and approve it as the library's settings
    demand;
  - record the new hash.

  They also create missing folders, parents first, and keep a site-level script link up to
  date.

The remote site is one `Remote.Site` object. Its state holds:

- the properties of one property bag, which stands for both the root web's bag the
  journals use and the context web's bag the hash provider uses;
- its files, folders and document libraries, each library with its check-out,
  versioning and moderation settings;
- its user custom actions;
- a fixed set of server calls that fail;
- the `history` of effects the server accepted. `Site.Replay` gives the meaning of that
  history.

Every imperative upload, folder and migration method is proved equal to the execution
(`Plans.Execute`) of a pure plan. The properties the engines promise are then proved about
those plans. Examples:

- an unchanged file is not touched;
- a changed file ends checked in and published as its library demands;
- the folder loop stops at the first error;
- folders are created parents first;
- a journalled migration is never run twice.

The local machine is a parameter: directory listings and file contents are given, and a
file that cannot be read raises the IOException the source would see. The hash algorithm,
UTF-8 decoding and encoding and the JSON serialiser are given as functions. The PowerShell
host is given per script as the result it produces for the arguments it is passed.

## Model

| member | source | states |
|---|---|---|
| OrderedMaps.Find | src/IonFar.SharePoint.Migration/Sync/WebPropertyHashProvider.cs:69 | the position found holds the first entry whose key equals the given key under the comparer; -1 means no entry's key does |
| OrderedMaps.Set | src/IonFar.SharePoint.Migration/Sync/WebPropertyHashProvider.cs:103 | the indexer setter keeps the number of entries or adds exactly one |
| OrderedMaps.SameKeyEquivalence | src/IonFar.SharePoint.Migration/Sync/WebPropertyHashProvider.cs:122 | both comparers are equivalences: reflexive, symmetric and transitive |
| OrderedMaps.ToDictionaryLookup | src/IonFar.SharePoint.Migration/Sync/WebPropertyHashProvider.cs:122 | the dictionary ToDictionary builds answers each entry of the list, under any spelling of its key the comparer equates, with that entry's value |
| OrderedMaps.LookupSetSame | src/IonFar.SharePoint.Migration/Sync/WebPropertyHashProvider.cs:69-103 | reading a key just written gives the written value, under any spelling of the key the comparer equates |
| OrderedMaps.LookupSetOther | src/IonFar.SharePoint.Migration/Sync/WebPropertyHashProvider.cs:69-103 | writing one key leaves the value of every other key as it was |
| OrderedMaps.SetKeepsUnique | src/IonFar.SharePoint.Migration/Sync/WebPropertyHashProvider.cs:103 | the indexer setter keeps the keys unique |
| SPUrlUtility.CombinePaths | src/IonFar.SharePoint.Migration/SPUrlUtility.cs:111-127 | the joined path starts with the first piece and ends with the second; its length is the two lengths plus one exactly when a '/' is inserted (both non-empty, first not ending in '/' or '\') and that character is '/' |
| SPUrlUtility.Combine | src/IonFar.SharePoint.Migration/SPUrlUtility.cs:106-128 | succeeds exactly when neither argument is null; a null first argument throws ArgumentNullException("path1"), a null second one ArgumentNullException("path2"); a result starts with path1 and ends with path2 |
| SPUrlUtility.CombineAll | src/IonFar.SharePoint.Migration/SPUrlUtility.cs:83-98 | a null array throws ArgumentNullException("paths"); an empty array gives ""; otherwise the loop computes the left fold of the pairwise Combine from the first element |
| SPUrlUtility.FoldCombineNonNull | src/IonFar.SharePoint.Migration/SPUrlUtility.cs:92-97 | with no null element the variadic Combine succeeds, returns a non-null path, and that path starts with the first element |
| SPUrlUtility.PrefixesExclusive | src/IonFar.SharePoint.Migration/SPUrlUtility.cs:153-162 | a path starting with "~sitecollection/" (any case) never starts with "~site/", so the order of the two tests does not matter |
| SPUrlUtility.ResolveSitePath | src/IonFar.SharePoint.Migration/SPUrlUtility.cs:153-161 | a "~site/"-prefixed path resolves to a URL starting with the web URL and ending with the rest of the path |
| SPUrlUtility.ResolveSiteCollectionPath | src/IonFar.SharePoint.Migration/SPUrlUtility.cs:162-170 | a "~sitecollection/"-prefixed path resolves to a URL starting with the site URL and ending with the rest of the path |
| SPUrlUtility.ResolveSiteRoot | src/IonFar.SharePoint.Migration/SPUrlUtility.cs:150-160 | "~site/" alone, in any letter case, resolves to exactly the web URL |
| SPUrlUtility.ResolveUnprefixed | src/IonFar.SharePoint.Migration/SPUrlUtility.cs:171-174 | a non-empty path not starting with '~' is returned unchanged |
| SPUrlUtility.ResolveIdempotent | src/IonFar.SharePoint.Migration/SPUrlUtility.cs:148-176 | with server-relative site and web URLs (starting with '/'), resolving a resolved path changes nothing |
| Remote.Site.Perform | src/IonFar.SharePoint.Migration/Synchronizer.cs:375-377 | one request followed by ExecuteQuery: a faulting call throws the server error and changes nothing; an accepted one appends its effect to the history and applies it to the state |
| Remote.ContextManager.constructor | src/IonFar.SharePoint.Migration/Services/BasicContextManager.cs:25-31 | the manager keeps the URL and credentials it is given; a Basic manager has no current context until a scope opens, an AppOnly manager has one at once, and an existing context is always current and never fails to connect |
| Remote.ContextManager.OpenScope | src/IonFar.SharePoint.Migration/Services/BasicContextManager.cs:94-102 | entering a ContextScope either throws the connection exception and changes nothing, or leaves a current context: the Basic and AppOnly managers install a new one, an existing manager keeps its own |
| Remote.ContextManager.CloseScope | src/IonFar.SharePoint.Migration/Services/BasicContextManager.cs:131-146 | disposing a Basic or AppOnly scope clears the current context, and throws NullReferenceException when a nested scope has already cleared it; an existing manager's scope does nothing |
| Text.Lower | src/IonFar.SharePoint.Migration/Synchronizer.cs:70 | invariant-culture lower-casing keeps the length and lowers each letter |
| Text.IndexOf | src/IonFar.SharePoint.Migration/Sync/WebPropertyHashProvider.cs:71 | the first index of the character, or -1 exactly when it does not occur |
| Text.LastIndexOf | src/IonFar.SharePoint.Migration/Synchronizer.cs:296 | the last index of the character, or -1 exactly when it does not occur |
| Text.Split | src/IonFar.SharePoint.Migration/Synchronizer.cs:230 | String.Split always yields at least one piece |
| Text.JoinSplit | src/IonFar.SharePoint.Migration/Synchronizer.cs:230-232 | joining the pieces of a split with the same separator gives back the string |
| Text.SplitJoin | src/IonFar.SharePoint.Migration/Sync/WebPropertyHashProvider.cs:71 | splitting the join of separator-free pieces gives back the pieces |
| Text.JoinSnoc | src/IonFar.SharePoint.Migration/Synchronizer.cs:232 | joining pieces with one more at the end appends the separator and that piece |
| Text.OrdinalTotal | src/IonFar.SharePoint.Migration/Providers/AssemblyMigrationProvider.cs:52 | any two names are ordered one way or the other |
| Text.OrdinalTransitive | src/IonFar.SharePoint.Migration/Providers/AssemblyMigrationProvider.cs:52 | the ordering of names is transitive |
| Text.NatToDigits | src/IonFar.SharePoint.Migration/Journals/WebPropertyBagJournal.cs:74 | the decimal text of a number is a non-empty run of digits |
| Text.DigitsValueOfNat | src/IonFar.SharePoint.Migration/Journals/WebPropertyBagJournal.cs:74 | the decimal digits written for a number read back as that number |
| Text.ParseLongRoundTrip | src/IonFar.SharePoint.Migration/Journals/WebPropertyBagJournal.cs:71-74 | long.TryParse reads back what long.ToString writes, for every 64-bit value |
| HashProviders.ParseHexByte | src/IonFar.SharePoint.Migration/Sync/WebPropertyHashProvider.cs:74 | a part parses exactly when it is non-empty hexadecimal text whose value fits a byte, and then yields that value; otherwise FormatException or OverflowException |
| HashProviders.DecodeHash | src/IonFar.SharePoint.Migration/Sync/WebPropertyHashProvider.cs:67-77 | the List<byte> loop yields the bytes of every '-'-separated part in order, or the exception of the first part that does not parse |
| HashProviders.PartsPrefix | src/IonFar.SharePoint.Migration/Sync/WebPropertyHashProvider.cs:72-75 | one more parsed part extends the decoded bytes by that part's byte |
| HashProviders.FirstFailure | src/IonFar.SharePoint.Migration/Sync/WebPropertyHashProvider.cs:72-75 | the first part that does not parse decides the exception of the whole decode |
| HashProviders.HexDigitRoundTrip | src/IonFar.SharePoint.Migration/Sync/WebPropertyHashProvider.cs:74 | a digit written by BitConverter reads back as its value |
| HashProviders.HexByteValue | src/IonFar.SharePoint.Migration/Sync/WebPropertyHashProvider.cs:102 | the two hexadecimal digits written for a byte read back as that byte |
| HashProviders.ParseHexPartsOfBytes | src/IonFar.SharePoint.Migration/Sync/WebPropertyHashProvider.cs:71-76 | parsing the parts written for a sequence of bytes gives the bytes back |
| HashProviders.HexRoundTrip | src/IonFar.SharePoint.Migration/Sync/WebPropertyHashProvider.cs:71-76 | the text StoreFileHash writes for a non-empty hash (BitConverter.ToString) is read back by GetFileHash as the same hash |
| HashProviders.HexTextLength | src/IonFar.SharePoint.Migration/Sync/WebPropertyHashProvider.cs:102 | BitConverter.ToString writes two digits per byte and one '-' between bytes |
| HashProviders.PairsJoinLength | src/IonFar.SharePoint.Migration/Sync/WebPropertyHashProvider.cs:102 | joining two-character parts with '-' gives three characters per part less one |
| HashProviders.EmptyHashDoesNotRoundTrip | src/IonFar.SharePoint.Migration/Sync/WebPropertyHashProvider.cs:102 | an empty hash is written as "", and reading "" back throws FormatException, so the empty hash does not round-trip |
| HashProviders.WebRelativeKey | src/IonFar.SharePoint.Migration/Sync/WebPropertyHashProvider.cs:62-66 | the key fails (ArgumentOutOfRangeException, as Substring does) exactly when the URL is shorter than the web URL |
| HashProviders.WebRelativeKeyBelowWeb | src/IonFar.SharePoint.Migration/Sync/WebPropertyHashProvider.cs:62-66 | a file below the web is keyed by its path below the web, without the leading '/' |
| HashProviders.WebRelativeKeyIgnoresPrefix | src/IonFar.SharePoint.Migration/Sync/WebPropertyHashProvider.cs:62 | the key depends only on the web URL's length: the characters it strips are never compared with the web URL |
| HashProviders.StoreThenGet | src/IonFar.SharePoint.Migration/Sync/WebPropertyHashProvider.cs:87-108 | after a non-empty hash is stored for a file, looking that file up in the map gives the hash back |
| HashProviders.StoreThenGetOtherCase | src/IonFar.SharePoint.Migration/Sync/WebPropertyHashProvider.cs:122 | the map's keys ignore case, so a URL whose key differs only in case finds the stored hash |
| HashProviders.StoredMapReloads | src/IonFar.SharePoint.Migration/Sync/WebPropertyHashProvider.cs:104-122 | the serialised map written under the property key is exactly the map a later provider loads from the property bag |
| HashProviders.WebPropertyHashProvider.constructor | src/IonFar.SharePoint.Migration/Sync/WebPropertyHashProvider.cs:38-43 | a null property bag key or hash algorithm takes the default ("ION_UploadHash", SHA256); the map is not loaded yet |
| HashProviders.WebPropertyHashProvider.InitHashValues | src/IonFar.SharePoint.Migration/Sync/WebPropertyHashProvider.cs:110-128 | loading the map from the property bag: a missing property gives an empty map, a stored one its deserialised entries keyed ignoring case; a failed load or duplicate keys throw and the map stays unloaded |
| HashProviders.WebPropertyHashProvider.GetFileHash | src/IonFar.SharePoint.Migration/Sync/WebPropertyHashProvider.cs:52-78 | the map is loaded on first use; the result is the stored hash of the file's web-relative key, the empty hash when there is none, or the exception of the load or of the key |
| HashProviders.WebPropertyHashProvider.StoreFileHash | src/IonFar.SharePoint.Migration/Sync/WebPropertyHashProvider.cs:87-108 | a store before the map is loaded throws InvalidOperationException; otherwise the hash's text is recorded under the file's key, and the whole serialised map is written to the property bag in one update, which keeps the new entry in the map even if the write fails |
| HashProviders.NewLoadedWebPropertyHashProvider | src/IonFar.SharePoint.Migration/Services/WebPropertyHashProvider.cs:48-71 | the eager provider's constructor: a null web throws; otherwise the map is loaded at once and its load error, if any, is thrown |
| HashProviders.NullGetFileHash | src/IonFar.SharePoint.Synchronization/Providers/NullHashProvider.cs:17-20 | the null provider returns the empty hash for every file |
| HashProviders.WriteThenRead | src/IonFar.SharePoint.Migration/Sync/WebPropertyHashProvider.cs:87-108 | a non-empty hash written through a loaded web provider is what the same provider reads back for that file, even when the property bag write failed |
| HashProviders.GetFileHash | src/IonFar.SharePoint.Synchronization/IHashProvider.cs:17 | dispatch of IHashProvider.GetFileHash: the hash and the provider's map are those the read from the current state gives |
| HashProviders.StoreFileHash | src/IonFar.SharePoint.Synchronization/IHashProvider.cs:26 | dispatch of IHashProvider.StoreFileHash: the null provider does nothing; the web provider's outcome, map and property bag write are those of the write |
| Journals.RecordOf | src/IonFar.SharePoint.Migration/Journals/WebPropertyBagJournal.cs:57-80 | a property that deserialises stands for its record; otherwise it stands for a record exactly when the text after the prefix parses as a positive long, whose Id and Name are that number and whose time is MinValue; otherwise it is skipped |
| Journals.MaxId | src/IonFar.SharePoint.Migration/Journals/WebPropertyBagJournal.cs:53-86 | the largest Id among the records, at least 0: no record's Id is above it, and it is 0 or some record's Id |
| Journals.ReadJournalSources | src/IonFar.SharePoint.Migration/Journals/WebPropertyBagJournal.cs:52-90 | every record read comes from a property whose key starts with the prefix |
| Journals.ReadJournalComplete | src/IonFar.SharePoint.Migration/Journals/WebPropertyBagJournal.cs:52-90 | every prefixed property that stands for a record is read |
| Journals.NextId | src/IonFar.SharePoint.Migration/Journals/WebPropertyBagJournal.cs:114 | the next Id is the last one plus one, wrapping to the smallest long after the largest (unchecked 64-bit addition) |
| Journals.StoredRecordIsRead | src/IonFar.SharePoint.Migration/Journals/WebPropertyBagJournal.cs:114-121 | a record written under prefix + Id is read back by the next GetExecutedMigrations, when the serializer round-trips |
| Journals.NextIdIsFresh | src/IonFar.SharePoint.Migration/Journals/WebPropertyBagJournal.cs:83-86 | after a read, the next Id is positive and above every Id read, unless the largest Id read is the largest long |
| Journals.JournalKeyInjective | src/IonFar.SharePoint.Migration/Journals/WebPropertyBagJournal.cs:114 | two Ids stored under the same prefix get the same property key only when they are equal |
| Journals.StoreAppendsRecord | src/IonFar.SharePoint.Migration/Journals/WebPropertyBagJournal.cs:100-126 | storing a record whose Id is above every Id read adds a new property, so the next read gives the earlier records followed by the new one, and every prefixed property stays keyed by its record's Id |
| Journals.WebPropertyBagJournal.constructor | src/IonFar.SharePoint.Migration/Journals/WebPropertyBagJournal.cs:31-34 | a null prefix takes the default "ION_Migration/"; the cursor is -1 and not initialised |
| Journals.WebPropertyBagJournal.GetExecutedMigrations | src/IonFar.SharePoint.Migration/Journals/WebPropertyBagJournal.cs:41-92 | a failed property load throws and leaves the cursor; otherwise the result is the records of the prefixed properties in enumeration order and the cursor is initialised to their largest Id (at least 0) |
| Journals.WebPropertyBagJournal.StoreExecutedMigration | src/IonFar.SharePoint.Migration/Journals/WebPropertyBagJournal.cs:100-126 | a store before any read throws InvalidOperationException and changes nothing; otherwise a failed load or update throws and leaves the cursor and the site; a completed store writes exactly one property, prefix + next Id, holding the serialised record, into the site's property bag, changes nothing else, and advances the cursor to that Id |
| Journals.NullGetExecutedMigrations | src/IonFar.SharePoint.Migration/Journals/NullJournal.cs:16-19 | the null journal has never recorded anything |
| Journals.NullStoreExecutedMigration | src/IonFar.SharePoint.Migration/Journals/NullJournal.cs:27-30 | the null journal returns a record with Id 0 and the migration's name, note and time, and stores nothing |
| Journals.LegacyReadJournal | src/IonFar.SharePoint.Migration/Providers/PropertyBagJournal.cs:35-66 | the older journal yields at most one record per property |
| Journals.LegacyReadSkips | src/IonFar.SharePoint.Migration/Providers/PropertyBagJournal.cs:48-64 | a property outside "migrationinfos/" or one that does not deserialise adds no record |
| Journals.LegacyReadAppend | src/IonFar.SharePoint.Migration/Providers/PropertyBagJournal.cs:50-65 | records come in enumeration order: the records of two runs of properties are concatenated |
| Journals.LegacyStoreExecutedMigration | src/IonFar.SharePoint.Migration/Providers/PropertyBagJournal.cs:73-87 | a failed load or update throws that call's error with nothing written; it completes exactly when neither fails, and then the property keyed by the record's Id holds the serialised record and nothing else on the site changes |
| Journals.LegacyNullGetExecutedMigrations | src/IonFar.SharePoint.Migration/Providers/NullJournal.cs:19-22 | the older null journal has never recorded anything |
| Plans.Execute | src/IonFar.SharePoint.Migration/Synchronizer.cs:325-429 | a run records at most one effect per step |
| Plans.ExecuteReplays | src/IonFar.SharePoint.Migration/Synchronizer.cs:325-429 | the state a run leaves the site in is the replay of exactly the effects it recorded |
| Plans.ExecuteAllAccepted | src/IonFar.SharePoint.Migration/Synchronizer.cs:381-427 | when the server accepts every ExecuteQuery the run succeeds with every requested effect, in order |
| Plans.ExecuteStopsAtFirstRefusal | src/IonFar.SharePoint.Migration/Synchronizer.cs:381-427 | the first refused ExecuteQuery or client throw ends the run with its exception, and only the requests before it have taken effect |
| Plans.ExecuteAppend | src/IonFar.SharePoint.Migration/Synchronizer.cs:325-429 | running two stretches of code one after the other is running them together; the second is not reached after a throw |
| Plans.ExecuteSingle | src/IonFar.SharePoint.Migration/Synchronizer.cs:377 | one ExecuteQuery either is refused with its fault, leaving the site alone, or records its effect |
| Plans.ExecuteThenRequest | src/IonFar.SharePoint.Migration/Synchronizer.cs:429 | a request after a stretch of code is made only when that stretch completed |
| Plans.ExecuteThrowFirst | src/IonFar.SharePoint.Migration/Synchronizer.cs:381-427 | once a throw happens nothing after it runs |
| Plans.ExecutePassFirst | src/IonFar.SharePoint.Migration/Synchronizer.cs:381-427 | after a completed stretch the rest runs from the state it left |
| Plans.RequestIf | src/IonFar.SharePoint.Migration/Synchronizer.cs:387-395 | a guarded ExecuteQuery performs its request exactly when the guard holds, with the plan's outcome and effects |
| Synchronization.UploadInfo.constructor | src/IonFar.SharePoint.Synchronization/UploadInfo.cs:22-29 | the record keeps the path, destination and changed flag, and a fresh copy of the hash bytes that later changes to the caller's array do not reach |
| Synchronization.UploadInfo.Hash | src/IonFar.SharePoint.Synchronization/UploadInfo.cs:39-46 | the getter hands out the stored array itself, so a caller can change the record's hash |
| Synchronization.SynchronizationResult.constructor | src/IonFar.SharePoint.Synchronization/SynchronizationResult.cs:18-24 | the result keeps the files in the order given, the success flag and the error |
| UploadPlans.HexPrefixFitsIff | src/IonFar.SharePoint.Migration/Synchronizer.cs:374 | the "updating" log line's Substring(0, 12) of the hex text succeeds exactly when the hash has at least five bytes |
| UploadPlans.PlanPropagatesServerErrors | src/IonFar.SharePoint.Migration/Synchronizer.cs:329-359 | a file lookup failing other than "File Not Found.", or a list lookup failing other than "does not belong to a list", is rethrown before any change |
| UploadPlans.PlanChecksOutOnlyWhenForced | src/IonFar.SharePoint.Migration/Synchronizer.cs:328-365 | a checkout is requested exactly when the file exists, is not checked out and its library forces checkout, and then before anything else |
| UploadPlans.PlanUploadsContent | src/IonFar.SharePoint.Migration/Synchronizer.cs:367-377 | the preprocessed content is uploaded exactly when no error escapes the checkout decision and the log line |
| UploadPlans.PublishingStepsHold | src/IonFar.SharePoint.Migration/Synchronizer.cs:405-426 | check-in exactly when asked, minor when the library has minor versions and never of the other kind; publish exactly at Published level with minor versions; approve exactly at Published level with moderation |
| UploadPlans.PlanFollowsLibrarySettings | src/IonFar.SharePoint.Migration/Synchronizer.cs:381-427 | in a library, Draft and Published levels check in when checkout is forced or the file is checked out, with the library's check-in type; Published also publishes (minor versions) and approves (moderation); Checkout does none of these |
| UploadPlans.PlanOutsideLibraries | src/IonFar.SharePoint.Migration/Synchronizer.cs:398-410 | outside a library only a major check-in of a checked-out file is made; no publish, no approval |
| UploadPlans.ShortHashPlanThrows | src/IonFar.SharePoint.Migration/Synchronizer.cs:374 | with a hash shorter than five bytes the log line throws, so publishing a changed file always fails |
| UploadPlans.AcceptedPlanLeavesFileCheckedIn | src/IonFar.SharePoint.Migration/Synchronizer.cs:325-427 | at Draft or Published level, a completed plan leaves the uploaded content at the URL, checked in |
| UploadPlans.PublishingLeavesCheckedIn | src/IonFar.SharePoint.Migration/Synchronizer.cs:405-426 | checking in, publishing and approving keep the file's content and leave it checked in |
| UploadPlans.ExecuteRestKeepsState | src/IonFar.SharePoint.Migration/Synchronizer.cs:411-426 | publishing and approving do not change the file's content or checkout state |
| UploadPlans.CompareHashes | src/IonFar.SharePoint.Migration/Synchronizer.cs:311-323 | the byte loop finds the contents matching exactly when the two hashes are equal |
| UploadPlans.PublishAndApprove | src/IonFar.SharePoint.Migration/Synchronizer.cs:411-426 | publish then approve, as requested, stopping at the first refusal; the site's history grows by exactly the accepted requests |
| UploadPlans.FinishPublishing | src/IonFar.SharePoint.Migration/Synchronizer.cs:405-426 | check in, publish and approve as the library's settings say, stopping at the first refusal |
| UploadPlans.CheckInAndPublish | src/IonFar.SharePoint.Migration/Synchronizer.cs:381-427 | loads the library's settings (tolerating "not in a list") and carries out the check-in and publishing steps they call for |
| UploadPlans.UploadAndCheckIn | src/IonFar.SharePoint.Migration/Synchronizer.cs:367-427 | the upload (after the log line), then the check-in and publishing steps for the file's state after the upload |
| UploadPlans.UploadDecided | src/IonFar.SharePoint.Migration/Synchronizer.cs:360-427 | the checkout when required, then the upload, check-in and publishing, carried out as the plan for that decision |
| UploadPlans.PublishChangedFile | src/IonFar.SharePoint.Migration/Synchronizer.cs:325-428 | the whole publication of a changed file is exactly the plan decided from the site's state before its first request |
| Folders.SplitHasTwoParts | src/IonFar.SharePoint.Migration/Synchronizer.cs:230-232 | a path holding a '/' splits into at least two segments, so the parent path and the last segment both exist |
| Folders.ParentPathAddsLastSegment | src/IonFar.SharePoint.Migration/Synchronizer.cs:230-237 | the parent path (all segments but the last, joined with '/') followed by '/' and the last segment is the original path |
| Folders.ParentPathResolves | src/IonFar.SharePoint.Migration/Synchronizer.cs:230-235 | the parent of a server-relative path is strictly shorter and has no prefix to resolve, so the recursion ends |
| Folders.EnsureFolderRejectsOutsideWeb | src/IonFar.SharePoint.Migration/Synchronizer.cs:214-220 | a folder whose resolved URL does not start with the web's URL throws the "above the current Web root" exception with both URLs in its message, before any lookup or change |
| Folders.EnsureFolderKeepsExisting | src/IonFar.SharePoint.Migration/Synchronizer.cs:222-227 | a folder the server loads is returned as it is: the plan is empty and nothing changes |
| Folders.FolderPlanUnfolds | src/IonFar.SharePoint.Migration/Synchronizer.cs:228-241 | a folder the server cannot load is created by first ensuring its parent path (shorter, a prefix of it, already resolved) and then adding the folder |
| Folders.FolderPlanRaisesFirst | src/IonFar.SharePoint.Migration/Synchronizer.cs:199-243 | an exception can only be the first step of the plan: once a folder is added, nothing further throws on the client side |
| Folders.AncestorOfParent | src/IonFar.SharePoint.Migration/Synchronizer.cs:230-237 | a folder added for the parent's path also lies on the child's path |
| Folders.FolderPlanAddsAncestors | src/IonFar.SharePoint.Migration/Synchronizer.cs:199-243 | every folder EnsureFolder adds lies on the requested path, under the web root, and could not be loaded before |
| Folders.FolderPlanParentsFirst | src/IonFar.SharePoint.Migration/Synchronizer.cs:234-240 | parents are added before children: the added folders' URLs grow strictly longer, and every request is an AddFolder |
| Folders.EnsuredFolderExists | src/IonFar.SharePoint.Migration/Synchronizer.cs:199-243 | when EnsureFolder completes without an exception, the requested folder exists on the site |
| Folders.AddedFolderExists | src/IonFar.SharePoint.Migration/Synchronizer.cs:237-240 | a plan that ends by adding a folder, and succeeds, leaves that folder on the site |
| Folders.EnsureFolderIdempotent | src/IonFar.SharePoint.Migration/Synchronizer.cs:199-243 | ensuring the same folder again after a successful run plans nothing (when the load does not fail) |
| Folders.EnsureFolderInternal | src/IonFar.SharePoint.Migration/Services/FileUploadService.cs:46-86 | FileUploadService's EnsureFolder returns the folder's URL or the exception of the folder plan from the state before it, and leaves exactly the plan's state and effects on the site |
| Folders.CreateFolder | src/IonFar.SharePoint.Migration/Services/FileUploadService.cs:72-83 | the catch branch: the parent's plan followed by adding the folder, returning the folder's URL or the first exception, with the plan's state and effects on the site |
| Folders.ClearingAgreesUnlessCreating | src/IonFar.SharePoint.Migration/Synchronizer.cs:228-241 | with a Basic or AppOnly manager the Synchronizer's EnsureFolder agrees with the folder plan exactly when no folder must be created; when one must, the plan adds it, whereas the nested scope leaves no context and the call ends in NullReferenceException |
| Folders.EnsureFolderInScope | src/IonFar.SharePoint.Migration/Synchronizer.cs:33-39 | the using block: a failed connection throws; with an existing context the folder plan runs; with a Basic or AppOnly manager the result is the argument check, the web-root guard, the loaded folder, or NullReferenceException for a folder to create, nothing is added, and no context is left |
| Folders.EnsureFolderInContext | src/IonFar.SharePoint.Migration/Synchronizer.cs:199-227 | with an existing context the folder plan; with a Basic or AppOnly manager nothing is added, a folder that need not be created gives the plan's answer and keeps the context, and one that must fails with no context left |
| Folders.CreateFolderInContext | src/IonFar.SharePoint.Migration/Synchronizer.cs:228-241 | the parent is ensured through the public EnsureFolder; with an existing context the parent's plan is followed by adding the folder; with a Basic or AppOnly manager the call fails, with nothing added and no context left |
| ScriptLinks.FindScriptLink | src/IonFar.SharePoint.Migration/Synchronizer.cs:70 | the index found is the first action whose name equals the given one ignoring case, or -1 when no name matches |
| ScriptLinks.Reconcile | src/IonFar.SharePoint.Migration/Synchronizer.cs:86-106 | the action leaves with the ScriptLink location and the wanted name, script source and sequence; it is marked changed exactly when the loaded action differed from that in some field |
| ScriptLinks.UpdatesOnlyWhenChanged | src/IonFar.SharePoint.Migration/Synchronizer.cs:71-116 | the link is added exactly when no action's name matches; an existing match is saved again exactly when it can be loaded and differs from the wanted link |
| ScriptLinks.FindAfterAdd | src/IonFar.SharePoint.Migration/Synchronizer.cs:71-81 | a link appended to actions none of which matches its name is afterwards the first match |
| ScriptLinks.FindAfterUpdate | src/IonFar.SharePoint.Migration/Synchronizer.cs:82-112 | a matching link saved in place of the first match is still the first match |
| ScriptLinks.ActionsAfterRun | src/IonFar.SharePoint.Migration/Synchronizer.cs:59-120 | after a successful run the site's custom actions are the old ones with the link appended, or with the first match replaced by the link |
| ScriptLinks.ScriptLinkEnsured | src/IonFar.SharePoint.Migration/Synchronizer.cs:59-120 | after a successful run the first action matching the name is exactly the wanted link, and no other action changed |
| ScriptLinks.ScriptLinkIdempotent | src/IonFar.SharePoint.Migration/Synchronizer.cs:107-116 | once a run succeeded, running again makes no request ("No change") |
| ScriptLinks.EnsureScriptLinkInScope | src/IonFar.SharePoint.Migration/Synchronizer.cs:63-118 | the method returns the wanted link or the first exception of the plan from the state before it, and leaves exactly that plan's state and effects on the site |
| Preprocessors.EnsureTrailingSlash | src/IonFar.SharePoint.Synchronization/Preprocessors/UrlTokenPreprocessor.cs:18-20 | the value always ends in "/", and a URL already ending in "/" is kept as it is |
| Preprocessors.RootWebValue | src/IonFar.SharePoint.Synchronization/Preprocessors/UrlTokenPreprocessor.cs:18 | a root web "/" gets no doubled slash |
| Preprocessors.UrlTokensAbsent | src/IonFar.SharePoint.Synchronization/Preprocessors/UrlTokenPreprocessor.cs:21-22 | text with no "~site/" or "~sitecollection/" anywhere comes back unchanged |
| Preprocessors.UrlTokensConcat | src/IonFar.SharePoint.Synchronization/Preprocessors/UrlTokenPreprocessor.cs:21-22 | text before the first token is copied through, and replacement resumes after it |
| Preprocessors.UrlTokenSiteReplaced | src/IonFar.SharePoint.Synchronization/Preprocessors/UrlTokenPreprocessor.cs:21-22 | "~site/" becomes the web URL, which is not scanned again |
| Preprocessors.UrlTokenSiteCollectionReplaced | src/IonFar.SharePoint.Synchronization/Preprocessors/UrlTokenPreprocessor.cs:21-22 | "~sitecollection/" becomes the site collection URL, which is not scanned again |
| Preprocessors.UrlTokensCaseSensitive | src/IonFar.SharePoint.Synchronization/Preprocessors/UrlTokenPreprocessor.cs:8 | the token pattern is case-sensitive: "~SITE/" is left alone |
| Preprocessors.WebTokenValue | src/IonFar.SharePoint.Synchronization/Preprocessors/UrlTokenPreprocessor.cs:17-18 | "~site/" resolves to the web's server-relative URL, with a trailing "/" |
| Preprocessors.SiteTokenValue | src/IonFar.SharePoint.Synchronization/Preprocessors/UrlTokenPreprocessor.cs:19-20 | "~sitecollection/" resolves to the site collection's server-relative URL, with a trailing "/" |
| Preprocessors.VariableDictionary.constructor | src/IonFar.SharePoint.Synchronization/Preprocessors/VariableSubstitutionPreprocessor.cs:21-24 | the preprocessor holds the caller's dictionary itself, with its entries |
| Preprocessors.VariableDictionary.Set | src/IonFar.SharePoint.Synchronization/Preprocessors/VariableSubstitutionPreprocessor.cs:14 | the caller's later writes to the shared dictionary change exactly one entry, and are seen by Process |
| Preprocessors.WordEnd | src/IonFar.SharePoint.Synchronization/Preprocessors/VariableSubstitutionPreprocessor.cs:15 | the greedy run of word characters: every character in it is a \w character and the one after it is not |
| Preprocessors.FirstMissing | src/IonFar.SharePoint.Synchronization/Preprocessors/VariableSubstitutionPreprocessor.cs:37-38 | the leftmost name missing from the dictionary, or none exactly when every name is defined |
| Preprocessors.SubstituteFailsOnFirstMissing | src/IonFar.SharePoint.Synchronization/Preprocessors/VariableSubstitutionPreprocessor.cs:29-40 | substitution succeeds exactly when every "$name$" found is defined; otherwise it throws InvalidOperationException for the leftmost undefined one |
| Preprocessors.SubstituteWithoutTokens | src/IonFar.SharePoint.Synchronization/Preprocessors/VariableSubstitutionPreprocessor.cs:29-32 | text where the pattern never matches comes back unchanged, whatever the dictionary holds |
| Preprocessors.SubstitutedValueNotRescanned | src/IonFar.SharePoint.Synchronization/Preprocessors/VariableSubstitutionPreprocessor.cs:31-39 | a defined "$name$" becomes its value, and the value is not scanned again |
| Preprocessors.WordEndOfRun | src/IonFar.SharePoint.Synchronization/Preprocessors/VariableSubstitutionPreprocessor.cs:15 | the run ends at the first non-word character |
| Preprocessors.LeftmostNonOverlapping | src/IonFar.SharePoint.Synchronization/Preprocessors/VariableSubstitutionPreprocessor.cs:15-31 | matches do not overlap: in "$a$b$" only "$a$" is replaced, and "b" need not be defined |
| Preprocessors.Process | src/IonFar.SharePoint.Migration/Services/UrlTokenPreprocessor.cs:37-46 | the URL token preprocessor replaces tokens with the current context's web and site URLs; the constructed variant, with the site and web it was given |
| Preprocessors.ApplyAllAppend | src/IonFar.SharePoint.Synchronization/Preprocessors/StreamPreprocessor.cs:27-30 | folding two lists of preprocessors one after the other is folding their concatenation; a failure stops the fold |
| Preprocessors.FoldStopsAtFailure | src/IonFar.SharePoint.Synchronization/Preprocessors/StreamPreprocessor.cs:27-30 | the first preprocessor that throws ends the whole fold with its exception |
| Preprocessors.StreamPreprocessor.constructor | src/IonFar.SharePoint.Synchronization/Preprocessors/StreamPreprocessor.cs:17-34 | a new preprocessor keeps its input and output and is not disposed |
| Preprocessors.StreamPreprocessor.Stream | src/IonFar.SharePoint.Synchronization/Preprocessors/StreamPreprocessor.cs:36-42 | the getter gives the output stream when one was made, otherwise the input stream |
| Preprocessors.StreamPreprocessor.Dispose | src/IonFar.SharePoint.Synchronization/Preprocessors/StreamPreprocessor.cs:44-63 | disposal releases the output stream, if any, the first time only; later calls do nothing |
| Preprocessors.NewStreamPreprocessor | src/IonFar.SharePoint.Synchronization/Preprocessors/StreamPreprocessor.cs:17-34 | with no preprocessors the input is passed through unread; otherwise the UTF-8 text is folded through the preprocessors in order and re-encoded, and a preprocessor's exception propagates |
| Migrations.LastSeparator | src/IonFar.SharePoint.Migration/Providers/ScriptMigration.cs:30 | the index of the last directory or volume separator of the path, or -1 when there is none |
| Migrations.GetFileName | src/IonFar.SharePoint.Migration/Providers/ScriptMigration.cs:26-33 | a migration's name is a suffix of its path containing no separator |
| Migrations.ScriptExtensionIgnoresCase | src/IonFar.SharePoint.Migration/Providers/Script/ScriptMigrationProvider.cs:39 | the extension test is String.Equals with ".ps1" ignoring letter case |
| Migrations.ScriptSuffixIsExtension | src/IonFar.SharePoint.Migration/Providers/Script/ScriptMigrationProvider.cs:39 | a file name ending in ".ps1" in any letter case passes the providers' extension test |
| Migrations.ScriptFileByName | src/IonFar.SharePoint.Migration/Providers/Script/ScriptMigrationProvider.cs:39 | a listed file is a script migration exactly when its file name ends in ".ps1" in any letter case |
| Migrations.ScriptMigration | src/IonFar.SharePoint.Migration/Providers/ScriptMigration.cs:21-41 | Name is the file name (a suffix of the path) and Note is the full path |
| Migrations.BracketEnd | src/IonFar.SharePoint.Migration/Providers/ScriptMigration.cs:179-201 | skipping a bracketed span stops at the "]" that closes the outermost "[", or at the end of the tokens |
| Migrations.GetScriptParameterNames | src/IonFar.SharePoint.Migration/Providers/ScriptMigration.cs:164-271 | the token loop, with its nested bracket-skipping loop, yields exactly the names of the scan's definition, in order |
| Migrations.ScanReportsVariables | src/IonFar.SharePoint.Migration/Providers/ScriptMigration.cs:249-258 | every name yielded is the content of a Variable token at or after the scan's position |
| Migrations.ParameterNamesAreVariables | src/IonFar.SharePoint.Migration/Providers/ScriptMigration.cs:249-258 | every declared parameter name is the content of a Variable token of the script |
| Migrations.ScanBeforeParam | src/IonFar.SharePoint.Migration/Providers/ScriptMigration.cs:217-227 | before the param keyword nothing is yielded |
| Migrations.NamesNeedParamKeyword | src/IonFar.SharePoint.Migration/Providers/ScriptMigration.cs:217-227 | a script without a param keyword declares no parameters |
| Migrations.GroupBeforeParamEndsScan | src/IonFar.SharePoint.Migration/Providers/ScriptMigration.cs:228-237 | a group opened before any param keyword or bracket ends the scan with no names |
| Migrations.TypedParamAfterAttribute | src/IonFar.SharePoint.Migration/Providers/ScriptMigration.cs:249-268 | inside the param group only the first variable after "(" or "," is a name; a default value is not |
| Migrations.TypedParamBracketEnd | src/IonFar.SharePoint.Migration/Providers/ScriptMigration.cs:179-201 | a bracket span is closed by its own "]" past nested parentheses |
| Migrations.TypedParamAttributeSkipped | src/IonFar.SharePoint.Migration/Providers/ScriptMigration.cs:179-201 | a parameter attribute "[...]" is skipped with the variables inside it |
| Migrations.TypedParamBlock | src/IonFar.SharePoint.Migration/Providers/ScriptMigration.cs:164-271 | param([Parameter(Mandatory=$true)] $Url = $Default, $Count) $Later declares exactly Url and Count |
| Migrations.BindMembers | src/IonFar.SharePoint.Migration/Providers/ScriptMigration.cs:77-99 | an argument is added exactly for each candidate parameter the script declares (ignoring case), carrying the context manager's value for it |
| Migrations.ArgumentsFollowDeclarations | src/IonFar.SharePoint.Migration/Providers/ScriptMigration.cs:59-99 | Context, Url, UserName, Password, SecurePassword and Credentials are passed exactly when declared; the credential exists only for a non-blank user name with a secure password |
| Migrations.ScriptOutcome | src/IonFar.SharePoint.Migration/Providers/ScriptMigration.cs:138-158 | the script succeeds exactly when the exit code is 0 and there were no errors; a non-zero exit code is reported first, then the error state and reason |
| Migrations.Apply | src/IonFar.SharePoint.Migration/Providers/ScriptMigration.cs:43-162 | the outcome is the body's; a body that throws changes nothing on the site; one that completes is recorded as applied in the site's history and state |
| MigrationProviders.CandidatesMembers | src/IonFar.SharePoint.Migration/Providers/AssemblyMigrationProvider.cs:44-51 | a migration is offered exactly when it is the instance of an exported concrete class implementing IMigration, with a parameterless constructor, whose full name passes the filter |
| MigrationProviders.AcceptAllKeepsCandidates | src/IonFar.SharePoint.Migration/Providers/AssemblyMigrationProvider.cs:23-26 | with the one-argument constructor's filter every such candidate type is offered |
| MigrationProviders.InsertByName | src/IonFar.SharePoint.Migration/Providers/AssemblyMigrationProvider.cs:52 | placing one migration into the ordered list adds exactly that migration |
| MigrationProviders.SortByName | src/IonFar.SharePoint.Migration/Providers/AssemblyMigrationProvider.cs:52 | ordering by name loses and adds no migration |
| MigrationProviders.InsertKeepsSorted | src/IonFar.SharePoint.Migration/Providers/AssemblyMigrationProvider.cs:52 | placing a migration into a name-ordered list keeps it ordered |
| MigrationProviders.SortIsSorted | src/IonFar.SharePoint.Migration/Providers/AssemblyMigrationProvider.cs:52 | the ordered list is in non-decreasing ordinal order of names |
| MigrationProviders.InsertWithName | src/IonFar.SharePoint.Migration/Providers/AssemblyMigrationProvider.cs:52 | placing a migration keeps the relative order of migrations that share a name |
| MigrationProviders.SortIsStable | src/IonFar.SharePoint.Migration/Providers/AssemblyMigrationProvider.cs:52 | OrderBy is stable: migrations of equal name stay in export order |
| MigrationProviders.AssemblyMigrationsOrdered | src/IonFar.SharePoint.Migration/Providers/AssemblyMigrationProvider.cs:42-56 | GetMigrations returns the filtered candidates ordered by name, as a permutation of them, with equal names in export order |
| MigrationProviders.WhereMembers | src/IonFar.SharePoint.Migration/Providers/Script/ScriptMigrationProvider.cs:37-44 | a path is kept exactly when it is listed and passes the test |
| MigrationProviders.WhereAppend | src/IonFar.SharePoint.Migration/Providers/Script/ScriptMigrationProvider.cs:37-44 | filtering keeps listing order: the filter of a concatenation is the concatenation of the filters |
| MigrationProviders.ScriptPathsInListingOrder | src/IonFar.SharePoint.Migration/Providers/Script/ScriptMigrationProvider.cs:33-44 | exactly the listed files with extension ".ps1" (any case) become migrations, in listing order |
| MigrationProviders.LegacyScriptMigration | src/IonFar.SharePoint.Migration/Providers/ScriptMigrationProvider.cs:38-67 | the older provider's migration is named by the file name, notes the full path and throws NotImplementedException when applied |
| MigrationProviders.NewAssemblyProvider | src/IonFar.SharePoint.Migration/Providers/AssemblyMigrationProvider.cs:23-37 | the one-argument provider keeps the assembly and accepts every type name |
| MigrationProviders.NewLegacyScriptProvider | src/IonFar.SharePoint.Migration/Providers/ScriptMigrationProvider.cs:16-20 | a null folder path throws ArgumentNullException("folderPath"); otherwise the provider keeps the path |
| MigrationProviders.NewScriptProvider | src/IonFar.SharePoint.Migration/Providers/Script/ScriptMigrationProvider.cs:19-24 | a null folder path throws ArgumentNullException("folderPath"), a null dictionary then throws ArgumentNullException("dictionary"); otherwise the provider keeps the path and a fresh copy of the variables |
| MigrationProviders.NewDefaultScriptProvider | src/IonFar.SharePoint.Migration/Providers/Script/ScriptMigrationProvider.cs:14-17 | the one-argument provider owns a fresh, empty variables dictionary |
| MigrationProviders.GetMigrations | src/IonFar.SharePoint.Migration/Providers/Script/ScriptMigrationProvider.cs:31-45 | the assembly provider never fails; a script provider whose folder does not exist throws DirectoryNotFoundException, otherwise yields one migration per ".ps1" file, in listing order, carrying the provider's variables (the older provider: its unimplemented migration) |
| MigrationProviders.LegacyMigrationsNotImplemented | src/IonFar.SharePoint.Migration/Providers/ScriptMigrationProvider.cs:64-67 | every migration of the older script provider throws NotImplementedException when applied |
| MigrationEngine.MigratorConfiguration.constructor | src/IonFar.SharePoint.Migration/MigratorConfiguration.cs:20-23 | a new configuration has the default trace log and no providers |
| MigrationEngine.MigratorConfiguration.AddMigrationProvider | src/IonFar.SharePoint.Migration/MigratorConfiguration.cs:33 | adding a provider appends it to the list and changes nothing else |
| MigrationEngine.MigratorConfiguration.Validate | src/IonFar.SharePoint.Migration/MigratorConfiguration.cs:38-44 | valid exactly when there is a log and at least one provider; a missing log is reported first, then a missing provider, each as ArgumentException with its message |
| MigrationEngine.CollectOutcome | src/IonFar.SharePoint.Migration/Migrator.cs:44 | the enumeration of all providers succeeds exactly when each provider does, and otherwise fails with the first provider's error |
| MigrationEngine.CollectAppend | src/IonFar.SharePoint.Migration/Migrator.cs:44 | the migrations of a list of providers are those of its parts, in provider order |
| MigrationEngine.AvailableMigrationsOutcome | src/IonFar.SharePoint.Migration/Migrator.cs:44 | every provider succeeds exactly when the enumeration does; otherwise the first failure is reported |
| MigrationEngine.AvailableMigrationsAppend | src/IonFar.SharePoint.Migration/Migrator.cs:44 | adding providers appends their migrations |
| MigrationEngine.MigrationsToRun | src/IonFar.SharePoint.Migration/Migrator.cs:48 | never more migrations run than are available |
| MigrationEngine.MigrationsToRunMembers | src/IonFar.SharePoint.Migration/Migrator.cs:48 | a migration runs exactly when it is available and no journal record has its name, ignoring case |
| MigrationEngine.MigrationsToRunAppend | src/IonFar.SharePoint.Migration/Migrator.cs:48 | the filter keeps provider order: it distributes over concatenation |
| MigrationEngine.MigrationsToRunTwice | src/IonFar.SharePoint.Migration/Migrator.cs:48 | filtering by two journals in turn is filtering by both together |
| MigrationEngine.MigrationsToRunIdempotent | src/IonFar.SharePoint.Migration/Migrator.cs:48 | filtering again by the same journal changes nothing |
| MigrationEngine.JournalledTwice | src/IonFar.SharePoint.Migration/Migrator.cs:48 | a journal read twice holds the same names |
| MigrationEngine.SameJournalSameRun | src/IonFar.SharePoint.Migration/Migrator.cs:48 | journals holding the same names, up to case, select the same migrations |
| MigrationEngine.AllJournalledNothingToRun | src/IonFar.SharePoint.Migration/Migrator.cs:48-54 | when every available migration is journalled nothing runs |
| MigrationEngine.NothingLeftAfterJournalling | src/IonFar.SharePoint.Migration/Migrator.cs:46-67 | once the journal also holds a record for each migration run, a second run has nothing to do |
| MigrationEngine.CaseInsensitiveMatch | src/IonFar.SharePoint.Migration/Migrator.cs:48 | "AddLists" does not run when "ADDLISTS" is journalled |
| MigrationEngine.DuplicateNamesBothRun | src/IonFar.SharePoint.Migration/Migrator.cs:48 | two unjournalled migrations with names equal up to case both run, in order |
| MigrationEngine.StepFailure | src/IonFar.SharePoint.Migration/Migrator.cs:60-62 | one migration's step succeeds exactly when its body completes and, for the web journal, the property bag loads and updates |
| MigrationEngine.FirstFailure | src/IonFar.SharePoint.Migration/Migrator.cs:56-67 | the index of the first migration whose step fails: every one before it succeeds |
| MigrationEngine.IdAfterCounts | src/IonFar.SharePoint.Migration/Migrator.cs:62 | below the largest long, the n-th record stored after the read gets Id start + n |
| MigrationEngine.ExpectedRecords | src/IonFar.SharePoint.Migration/Migrator.cs:62-66 | the k-th record returned carries the k-th migration's name and note |
| MigrationEngine.ExpectedRecordsSnoc | src/IonFar.SharePoint.Migration/Migrator.cs:66 | each stored record is appended to the applied list |
| MigrationEngine.RunEffects | src/IonFar.SharePoint.Migration/Migrator.cs:56-67 | the server sees at least one change per migration recorded |
| MigrationEngine.RunEffectsSnoc | src/IonFar.SharePoint.Migration/Migrator.cs:56-67 | recording one more migration extends the accepted changes by its application and its journal write |
| MigrationEngine.RunEffectsAppend | src/IonFar.SharePoint.Migration/Migrator.cs:56-67 | one more recorded migration adds its application and journal write at the end of the server's changes |
| MigrationEngine.NullJournalRunEffects | src/IonFar.SharePoint.Migration/Migrator.cs:56-67 | with the null journal the server sees only the migrations, in run order |
| MigrationEngine.FirstFailureAt | src/IonFar.SharePoint.Migration/Migrator.cs:56-67 | the first failure is at i when every migration before i succeeds and i fails or ends the list |
| MigrationEngine.WebStepReplay | src/IonFar.SharePoint.Migration/Migrator.cs:60-66 | replaying one step on the web journal changes only the property that holds its record |
| MigrationEngine.ExpectedIds | src/IonFar.SharePoint.Migration/Migrator.cs:60-66 | the records a run stores have Id 0 on the null journal, and consecutive Ids after the largest one read on the web journal, below the largest long |
| MigrationEngine.JournalStep | src/IonFar.SharePoint.Migration/Migrator.cs:60-66 | one more applied and journalled migration, whose Id is above every Id the journal reads, appends its record to what the journal reads back and keeps the properties keyed by their records' Ids |
| MigrationEngine.JournalAfterRun | src/IonFar.SharePoint.Migration/Migrator.cs:56-67 | after the first n steps of a run on the web journal, reading the journal gives the records it held followed by the n records stored, in run order, when its codec round-trips, its properties are keyed by their records' Ids and the Ids stay below the largest long |
| MigrationEngine.ApplyAndJournal | src/IonFar.SharePoint.Migration/Migrator.cs:60-66 | a failing step reports its exception and leaves the journal's cursor, with only the migration's own work on the site when the body completed; a completed step applies the migration, stores its record with the next Id and advances the cursor; the site's state is the replay of exactly those changes |
| MigrationEngine.RunStep | src/IonFar.SharePoint.Migration/Migrator.cs:56-67 | one iteration either extends the records by one successful migration or stops with the step's exception; the site's history and state grow by exactly that step's changes |
| MigrationEngine.RunMigrations | src/IonFar.SharePoint.Migration/Migrator.cs:56-67 | the foreach applies and journals the migrations in order; the first exception stops it with the records stored before it; the server's history grows by exactly those migrations' changes and its state is their replay |
| MigrationEngine.RunOf | src/IonFar.SharePoint.Migration/Migrator.cs:53-78 | the records carry the names, notes and time of the migrations to run, in order, one per step before the first failing one; the run succeeds exactly when every step does, and otherwise reports the first failing step's exception; Ids are 0 on the null journal and consecutive after the start on the web journal |
| MigrationEngine.RunAfterRead | src/IonFar.SharePoint.Migration/Migrator.cs:44-78 | a failing provider stops the run with no record and no change; otherwise the records follow the migrations left after filtering, in order, none of them already journalled, and on the web journal their Ids are above every Id read |
| MigrationEngine.ExpectedRun | src/IonFar.SharePoint.Migration/Migrator.cs:29-79 | a missing context manager or journal, a failed connection or a failed journal read stops the run with no record and no change; on the null journal every record has Id 0 |
| MigrationEngine.RunOfNothing | src/IonFar.SharePoint.Migration/Migrator.cs:50-54 | with nothing to run the result is successful, empty and without error, and nothing changes |
| MigrationEngine.SuccessfulRunOf | src/IonFar.SharePoint.Migration/Migrator.cs:56-67 | a successful loop stores one record per migration to run and the server sees exactly their steps |
| MigrationEngine.SuccessfulRunIsJournalled | src/IonFar.SharePoint.Migration/Migrator.cs:29-80 | after a successful run on the web journal, reading the journal gives the earlier records followed by the run's, and running again would find nothing to run |
| MigrationEngine.RunAndReport | src/IonFar.SharePoint.Migration/Migrator.cs:50-78 | the loop's records and error, and the server's changes and resulting state, are those of the run's definition |
| MigrationEngine.MigrateAfterRead | src/IonFar.SharePoint.Migration/Migrator.cs:44-78 | collect, filter and run the migrations after the journal read, with the result, history and state the run's definition gives |
| MigrationEngine.MigrateInScope | src/IonFar.SharePoint.Migration/Migrator.cs:37-78 | inside the scope: the journal read, then collection, filtering and the loop, with any exception caught into the result and the site's state the replay of the run's changes |
| MigrationEngine.Migrator.constructor | src/IonFar.SharePoint.Migration/Migrator.cs:21-24 | the migrator keeps its configuration |
| MigrationEngine.Migrator.PerformMigration | src/IonFar.SharePoint.Migration/Migrator.cs:29-80 | an invalid configuration throws; otherwise the result is the expected run's, every later exception is reported in it, the scope leaves the context as the manager's kind says, and the site's history and state are the run's changes; after a successful run on a web journal that reads back what it stores, the journal holds the earlier records followed by the run's, and nothing is left to run |
| Synchronizers.SynchronizerConfiguration.constructor | src/IonFar.SharePoint.Migration/SynchronizerConfiguration.cs:21-25 | a new configuration has the trace log and a web property hash provider with the default key and nothing loaded, no context manager and no preprocessors, so it fails validation for the missing context manager |
| Synchronizers.SynchronizerConfiguration.AddPreprocessor | src/IonFar.SharePoint.Migration/SynchronizerConfiguration.cs:45-48 | the getter hands out the configuration's own list: an added preprocessor goes at its end and nothing else changes |
| Synchronizers.SynchronizerConfiguration.Validate | src/IonFar.SharePoint.Migration/SynchronizerConfiguration.cs:53-58 | valid exactly when there is a log, a hash provider and a context manager; the first missing one, in that order, is reported as ArgumentException with its message |
| Synchronizers.UnchangedFileUntouched | src/IonFar.SharePoint.Migration/Synchronizer.cs:311-323 | a file whose hash equals the stored one sends no request, leaves the server and the provider's map alone and is reported unchanged |
| Synchronizers.ChangedIffHashDiffers | src/IonFar.SharePoint.Migration/Synchronizer.cs:311-378 | a completed file is reported changed exactly when its hash differs from the stored one; its reported hash is the digest of the preprocessed content, which was uploaded |
| Synchronizers.ChangedHashIsStored | src/IonFar.SharePoint.Migration/Synchronizer.cs:429 | a changed file's hash is stored after every publishing request succeeded, and the web provider then reads that hash back for the file |
| Synchronizers.PublishAndStoreHash | src/IonFar.SharePoint.Migration/Synchronizer.cs:325-429 | publishing then storing the hash leaves the server and the provider exactly as the definition says, the history grown by the accepted requests |
| Synchronizers.CompareAndSync | src/IonFar.SharePoint.Migration/Synchronizer.cs:311-434 | compare the hashes and publish only a changed file, as the definition says |
| Synchronizers.PreprocessAndSync | src/IonFar.SharePoint.Migration/Synchronizer.cs:304-435 | the using block: preprocess the stream, hash it, compare and publish; the preprocessor is disposed on every path |
| Synchronizers.ReadAndSync | src/IonFar.SharePoint.Migration/Synchronizer.cs:299-435 | read the stored hash first, then preprocess, compare and publish |
| Synchronizers.UploadFileInternal | src/IonFar.SharePoint.Migration/Synchronizer.cs:290-439 | a null hash provider throws; otherwise the server and provider change as the definition says, and a completed file's UploadInfo reports its path, URL, changed flag and a fresh copy of the local hash |
| Synchronizers.LoopReportsInOrder | src/IonFar.SharePoint.Migration/Synchronizer.cs:267-277 | the foreach reports every file exactly when no exception stopped it; otherwise fewer |
| Synchronizers.LoopReportsGrow | src/IonFar.SharePoint.Migration/Synchronizer.cs:267-277 | reports are never taken back: later reports extend earlier ones |
| Synchronizers.LoopErrorPersists | src/IonFar.SharePoint.Migration/Synchronizer.cs:267-281 | once an exception escapes the loop, no later file changes the run |
| Synchronizers.LoopStopsAtFirstError | src/IonFar.SharePoint.Migration/Synchronizer.cs:267-281 | the loop over all files is the loop up to and including the first that threw, and every file before it completed |
| Synchronizers.LoopUnchangedIsNoop | src/IonFar.SharePoint.Migration/Synchronizer.cs:267-277 | a completed loop in which no file was reported changed accepted no change on the server |
| Synchronizers.PrepareAll | src/IonFar.SharePoint.Migration/Synchronizer.cs:272-274 | the prepared content of each file is its own read and preprocessing, one per listed path |
| Synchronizers.Absorb | src/IonFar.SharePoint.Migration/Synchronizer.cs:274-275 | a completed file adds exactly one report at the end; a file that throws adds none; the file's server changes are kept either way |
| Synchronizers.StepReportsOnePass | src/IonFar.SharePoint.Migration/Synchronizer.cs:267-277 | each pass of the foreach reports only the file it completed |
| Synchronizers.SyncStepUnchangedIsNoop | src/IonFar.SharePoint.Migration/Synchronizer.cs:311-323 | a file reported unchanged left the server as it was |
| Synchronizers.OpenAndUpload | src/IonFar.SharePoint.Migration/Synchronizer.cs:269-276 | the loop body: open the file, upload it to the destination URL, and report it with its path |
| Synchronizers.ReportsDescribeEach | src/IonFar.SharePoint.Migration/Synchronizer.cs:275 | the k-th UploadInfo describes the k-th file and what was done to it |
| Synchronizers.ReportsExtend | src/IonFar.SharePoint.Migration/Synchronizer.cs:275 | adding a completed file's UploadInfo extends the reports by it |
| Synchronizers.SyncPass | src/IonFar.SharePoint.Migration/Synchronizer.cs:272-276 | one pass keeps the loop's agreement with the run: server, provider and reports advance by that file |
| Synchronizers.LoopTakesStep | src/IonFar.SharePoint.Migration/Synchronizer.cs:267-277 | a pass after files that completed absorbs the next file's run |
| Synchronizers.SyncEach | src/IonFar.SharePoint.Migration/Synchronizer.cs:266-277 | the loop's UploadInfos, error, server and provider agree with the run over all listed files |
| Synchronizers.SyncFilesLoop | src/IonFar.SharePoint.Migration/Synchronizer.cs:266-277 | the foreach ends with the run's error, server state, history and provider map, and one UploadInfo per completed file, in order |
| Synchronizers.FolderSync | src/IonFar.SharePoint.Migration/Synchronizer.cs:245-288 | a null source path or destination throws ArgumentNullException (source first); otherwise a run, which stops before any file when the folder cannot be enumerated |
| Synchronizers.FolderSyncSucceedsIffAllReported | src/IonFar.SharePoint.Migration/Synchronizer.cs:266-279 | the synchronisation succeeds exactly when the folder was enumerated and every listed file was reported |
| Synchronizers.LoopOnPrefix | src/IonFar.SharePoint.Migration/Synchronizer.cs:267-277 | the first m passes see only the first files |
| Synchronizers.LoopStopsOnPrefix | src/IonFar.SharePoint.Migration/Synchronizer.cs:267-281 | a file that throws ends the loop: the run is the run over the files up to it, all earlier ones completed |
| Synchronizers.PrepareAllPrefix | src/IonFar.SharePoint.Migration/Synchronizer.cs:272-274 | preparing the first n files is the first n preparations |
| Synchronizers.SyncFilesOnPrefix | src/IonFar.SharePoint.Migration/Synchronizer.cs:267-277 | the run over the first n files uses only their prepared contents |
| Synchronizers.SyncFilesStopsAtFirstFailure | src/IonFar.SharePoint.Migration/Synchronizer.cs:267-281 | the foreach over a folder ends at the first file that throws, with all earlier ones completed |
| Synchronizers.FolderSyncStopsAtFirstFailure | src/IonFar.SharePoint.Migration/Synchronizer.cs:254-287 | a failed synchronisation is exactly the one over a folder holding only the files up to the failing one; no later file is touched |
| Synchronizers.FolderSyncUnchangedIsNoop | src/IonFar.SharePoint.Migration/Synchronizer.cs:254-279 | a completed synchronisation that found every file unchanged left the server as it was |
| Synchronizers.SynchronizeFolderInternal | src/IonFar.SharePoint.Migration/Synchronizer.cs:245-288 | null arguments throw with nothing done; otherwise every exception is caught into an unsuccessful result holding the files completed before it, and the server and provider end as the run says |
| Synchronizers.UploadFileIsFolderStep | src/IonFar.SharePoint.Migration/Synchronizer.cs:166-178 | uploading one file of a folder by itself does exactly what the folder's synchronisation does for that file |
| Synchronizers.UploadedFileIffChanged | src/IonFar.SharePoint.Migration/Synchronizer.cs:175-176 | UploadFile returns the file exactly when its hash differed from the stored one and it was uploaded; otherwise null |
| Synchronizers.UploadResolved | src/IonFar.SharePoint.Migration/Synchronizer.cs:168-176 | resolve the destination, cut off the folder, synchronise the stream and return its File, with the server changes of the run |
| Synchronizers.SynchronizeThenClose | src/IonFar.SharePoint.Migration/Synchronizer.cs:140-143 | the body of the using block synchronises the folder; closing the scope then clears the current context of a Basic or AppOnly manager, and an existing manager keeps the context it had |
| Synchronizers.SynchronizeInScope | src/IonFar.SharePoint.Migration/Synchronizer.cs:140-143 | a failed connection throws with nothing done and the context as it was; otherwise the folder is synchronised, and afterwards a Basic or AppOnly manager has no current context while an existing manager keeps its own |
| Synchronizers.Synchronizer.constructor | src/IonFar.SharePoint.Migration/Synchronizer.cs:23-26 | the synchronizer keeps its configuration |
| Synchronizers.Synchronizer.EnsureFolder | src/IonFar.SharePoint.Migration/Synchronizer.cs:33-39 | a missing context manager is a null reference and a failed connection throws with nothing done; with an existing context the folder plan runs; with a Basic or AppOnly manager the call agrees with the plan when no folder must be created, and otherwise ends in NullReferenceException with nothing added, because the nested EnsureFolder's scope cleared the context |
| Synchronizers.Synchronizer.EnsureSiteScriptLink | src/IonFar.SharePoint.Migration/Synchronizer.cs:59-120 | a missing context manager is a null reference and a failed connection throws with nothing done; otherwise the script link plan runs, and the scope is closed again |
| Synchronizers.Synchronizer.SynchronizeFolder | src/IonFar.SharePoint.Migration/Synchronizer.cs:138-144 | a missing context manager is a null reference and a failed connection throws with nothing done; otherwise the folder is synchronised with the configured provider and preprocessors, and the scope is closed again |
| Synchronizers.Synchronizer.SynchronizeFolderPublished | src/IonFar.SharePoint.Migration/Synchronizer.cs:127-130 | the two-argument overload synchronises at the Published level |
| Synchronizers.Synchronizer.UploadFile | src/IonFar.SharePoint.Migration/Synchronizer.cs:166-178 | with no current context (a Basic manager outside a scope, or any manager once a scope has cleared it) the call is a null reference with nothing done; otherwise the file read from its path is synchronised as one file of a folder is, and returned when it was uploaded; the context is left as it was |
| Synchronizers.Synchronizer.UploadStream | src/IonFar.SharePoint.Migration/Synchronizer.cs:188-197 | with no current context the call is a null reference with nothing done; otherwise the stream is synchronised with no source path, and returned when it was uploaded; the context is left as it was |
| FileUploads.ServicePlanSplits | src/IonFar.SharePoint.Migration/Services/FileUploadService.cs:121-173 | once the existing file's load is settled, the checkout step runs first and the rest continues from the state it left, or the plan stops there |
| FileUploads.UploadStepsRun | src/IonFar.SharePoint.Migration/Services/FileUploadService.cs:159-173 | the upload is followed by a major check-in when the new version is checked out, otherwise by a publish; each stops the upload at a server fault |
| FileUploads.ServiceUploadOtherErrorsEscape | src/IonFar.SharePoint.Migration/Services/FileUploadService.cs:127-133 | a server error other than FileNotFoundException while loading the existing file escapes with nothing done |
| FileUploads.ServiceUploadCompletes | src/IonFar.SharePoint.Migration/Services/FileUploadService.cs:121-175 | a completed upload leaves the new content checked in; a checkout came first exactly when the file existed and checkout was asked; a major check-in follows when the upload left it checked out, otherwise a publish |
| FileUploads.ServiceReadFailureKeepsCheckout | src/IonFar.SharePoint.Migration/Services/FileUploadService.cs:136-156 | a local file that cannot be opened fails only after the checkout, so the existing file is left checked out |
| FileUploads.ReadAndUploadChecksInMajor | src/IonFar.SharePoint.Migration/Services/FileUploadService.cs:156-168 | after the checkout, only major check-ins are made |
| FileUploads.ServiceUploadChecksInMajor | src/IonFar.SharePoint.Migration/Services/FileUploadService.cs:164-168 | every check-in UploadFile makes is a major one |
| FileUploads.UploadContent | src/IonFar.SharePoint.Migration/Services/FileUploadService.cs:159-173 | the upload then the check-in or publish, as far as the server accepts, with exactly the accepted changes recorded |
| FileUploads.ReadAndUpload | src/IonFar.SharePoint.Migration/Services/FileUploadService.cs:156-173 | open the local file, then upload it; a failed open throws before any request |
| FileUploads.UploadToUrl | src/IonFar.SharePoint.Migration/Services/FileUploadService.cs:120-175 | the whole of UploadFile once the URL is known, carried out request by request as the plan says |
| FileUploads.LoopReportsAllChanged | src/IonFar.SharePoint.Migration/Services/FileUploadService.cs:222-365 | when every pass reports its file changed, every file the loop reports is changed |
| FileUploads.NullProviderPassChanges | src/IonFar.SharePoint.Migration/Services/FileUploadService.cs:211-214 | with the null provider no hash is stored, so a file that completes is always uploaded |
| FileUploads.NullProviderUploadsEveryFile | src/IonFar.SharePoint.Migration/Services/FileUploadService.cs:211-357 | UploadFolder without a hash provider uploads every file it gets through |
| FileUploads.ServiceHashesRawContent | src/IonFar.SharePoint.Migration/Services/FileUploadService.cs:227-236 | the bytes hashed and uploaded are the local file's own bytes; no preprocessor runs |
| FileUploads.UploadOne | src/IonFar.SharePoint.Migration/Services/FileUploadService.cs:224-363 | one pass: open the file and publish it if its hash changed, keeping server and provider in line with the run |
| FileUploads.UploadEach | src/IonFar.SharePoint.Migration/Services/FileUploadService.cs:221-365 | the foreach ends with the run's error, and server and provider as the run over all listed files says |
| FileUploads.FileUploadService.constructor | src/IonFar.SharePoint.Migration/Services/FileUploadService.cs:24-28 | a null logger is replaced by the trace log; the context is kept |
| FileUploads.FileUploadService.EnsureFolder | src/IonFar.SharePoint.Migration/Services/FileUploadService.cs:35-87 | the folder is ensured on the context web as the folder plan says |
| FileUploads.FileUploadService.UploadFile | src/IonFar.SharePoint.Migration/Services/FileUploadService.cs:97-176 | a null folder URL or destination name throws with nothing done; otherwise the file's URL is the folder combined with the name, and the upload plan is carried out with its first exception escaping |
| FileUploads.FileUploadService.UploadFolder | src/IonFar.SharePoint.Migration/Services/FileUploadService.cs:184-366 | null arguments throw with nothing done; otherwise each listed file is published if its hash changed, with a null provider when none is given, at the Published level and with no preprocessing; the first exception escapes |

## Left out

- Logging: the upgrade log and trace calls are not modelled. The exceptions are the two log lines that take the first twelve characters of a hash's text, because they throw for a hash under five bytes: the "updating" line before an upload (`UploadPlans.UploadStep`, `UploadPlans.ShortHashPlanThrows`) and the "no change" line for an unchanged file (`Synchronizers.CompareAndPublish`, from src/IonFar.SharePoint.Migration/Synchronizer.cs:433 and src/IonFar.SharePoint.Migration/Services/FileUploadService.cs:361).
- PowerShell hosting: runspace creation, Set-ExecutionPolicy, Import-Module, the session variables (SPContext and the others set at src/IonFar.SharePoint.Migration/Providers/ScriptMigration.cs:54-64), the output polling loop and the host's output streams are not modelled. The tokenizer's token list and the host's exit code and error flag are inputs of the script file. This is because they are foreign code.
- Migration bodies: what an assembly migration's Apply does on the server is abstracted to one MigrationApplied effect and an outcome that is an input, because that code belongs to the user, not to the engine.
- Reflection: the assembly's exported types are a given list. Failures of Activator.CreateInstance are not modelled, because they are foreign code.
- MigrationProviders.SortByName: orders names by ordinal character comparison. The source's OrderBy uses the current culture's comparer, which is culture data outside this model.
- Text.Lower: case-insensitive comparison (the journal lookup, the hash map's keys, file extensions) folds ASCII letters only. Culture and Unicode case folding are not modelled.
- Text.ParseLongRoundTrip: long.TryParse and byte.Parse are modelled for ASCII digits with an optional sign, within the 64-bit range. Leading and trailing white space, thousands separators and culture-specific signs and digits are not modelled.
- Preprocessors.WordEnd: the regular-expression class \w is limited to ASCII letters, digits and '_'.
- char.IsWhiteSpace is limited to the Latin-1 white-space characters.
- Path.GetFileName's ArgumentException for characters invalid in a path is not modelled, because listings are taken to hold valid paths.
- src/IonFar.SharePoint.Migration/Providers/Script/ScriptMigration.cs, the two-argument ScriptMigration the newer script provider constructs, is not part of this model. Its migrations carry the provider's variables and are applied as the older src/IonFar.SharePoint.Migration/Providers/ScriptMigration.cs applies them, so the variables are carried but not used.
- Directory enumeration: a listing is a given sequence in the order the file system returns it. I/O errors in the middle of a lazy enumeration are not modelled.
- File.OpenRead: every failure is modelled as an IOException naming the path, because the kinds of I/O failure are outside the model.
- Streams: a stream is modelled as the bytes it yields. Disposal is modelled only where the source's StreamPreprocessor depends on it. Byte-order-mark detection by StreamReader is left to the decoding function.
- JSON: serialisation is an abstract codec. A deserialisation that throws or yields null is reported as a JsonSerializationException.
- HashProviders.WebPropertyHashProvider.constructor: the hash-algorithm name is stored as the source stores it but not used, as in the source. The digest is the function parameter.
- The Services copy of the web property hash provider (src/IonFar.SharePoint.Migration/Services/WebPropertyHashProvider.cs) shares the lazy provider's map logic. Only its eager constructor is modelled separately (`HashProviders.NewLoadedWebPropertyHashProvider`).
- Connections: ClientContext creation, credentials and authentication are abstracted to one flag saying whether opening the context fails, because they are network code.
- FileUploads.FileUploadService.EnsureFolder: the web's ServerRelativeUrl load is taken to succeed, and the web URL is required to start with '/', as SharePoint always returns it. The nested recursion, which goes through the string overload that resolves the parent path again, is modelled by the same folder algorithm: that resolution leaves a server-relative path as it is.
- Web arguments: the overloads that take a Web are modelled for the context's own web only. The ArgumentNullException("web") checks of FileUploadService are therefore not modelled.
- Synchronizers.Synchronizer.UploadFile: null sourcePath, stream and destination arguments are not modelled, because strings and streams are values here.
- Synchronizers.Synchronizer.constructor: the source's Synchronizer never calls SynchronizerConfiguration.Validate. The model keeps that, so a missing context manager surfaces as a NullReferenceException when first used.
- MigrationEngine.MigratorConfiguration.constructor: src/IonFar.SharePoint.Migration/MigratorConfiguration.cs does not declare the Journal and ContextManager properties that src/IonFar.SharePoint.Migration/Migrator.cs reads. They are modelled as plain fields, with no checks of their own.
- Folders.EnsureFolderInternal: the Folder objects the source returns are modelled as their server-relative URLs. The same holds for the File object UploadFile returns.
- Property bags: the journals read and write Site.RootWeb.AllProperties (src/IonFar.SharePoint.Migration/Journals/WebPropertyBagJournal.cs:46-48 and 108-110, src/IonFar.SharePoint.Migration/Providers/PropertyBagJournal.cs:39-43 and 75-79), while the hash provider uses the context web's Web.AllProperties (src/IonFar.SharePoint.Migration/Sync/WebPropertyHashProvider.cs:105 and 113-118). The model has one bag for both, which is exact only when the context web is the root web. On a subweb the two are separate bags, and the model does not capture that separation.
- Journals.RecordOf: a deserialised record whose Name is null is not represented, because names are strings here. The source's case-insensitive name comparison at src/IonFar.SharePoint.Migration/Migrator.cs:48 would throw NullReferenceException on such a record.
- Journals.ReadJournal: the prefix test is ordinal. The source's StartsWith at src/IonFar.SharePoint.Migration/Journals/WebPropertyBagJournal.cs:52 compares under the current culture, which is culture data outside this model.
- Remote.ContextManager.constructor: the AppOnly manager creates its context in its constructor (src/IonFar.SharePoint.Migration/Services/AppOnlyContextManager.cs:28). That creation is taken to succeed; only a scope's creation can fail. An ExistingContextManager given a null context is not modelled.
- MigrationEngine.RunOf: the clock is read once per run. Every record of a run is stamped `At(now)` (`MigrationEngine.RecordFor`), and `RunMigrations`, `RunStep`, `ApplyAndJournal` and `Migrator.PerformMigration` pass that one `now` along. The source reads DateTimeOffset.UtcNow again at each store (src/IonFar.SharePoint.Migration/Journals/WebPropertyBagJournal.cs:115, src/IonFar.SharePoint.Migration/Journals/NullJournal.cs:29), so the records of one run can carry different, non-decreasing times. The model does not capture those differences.
- SPUrlUtility.ResolveServerRelativeUrl: the ServerRelativeUrl loads of the web and the site collection (src/IonFar.SharePoint.Migration/SPUrlUtility.cs:155-159 and 164-168) are not modelled. The site's `webUrl` and `siteUrl` are constants of the model, so these loads send no request and cannot fail. The same holds for the web load in the Synchronizer's EnsureFolder (src/IonFar.SharePoint.Migration/Synchronizer.cs:208-212), modelled by `Folders.EnsureFolderInScope`.
- Folders.FolderPlan: the web-root guard compares ordinally. The source's StartsWith at src/IonFar.SharePoint.Migration/Services/FileUploadService.cs:59 and src/IonFar.SharePoint.Migration/Synchronizer.cs:214 compares under the current culture, which is culture data outside this model. The same guard is used by `Folders.EnsureFolderInScope`, `Folders.EnsureFolderInContext` and `Folders.EnsureFolderInternal`.
- Journals.LegacyReadJournal: the "migrationinfos/" prefix test is ordinal. The source's StartsWith at src/IonFar.SharePoint.Migration/Providers/PropertyBagJournal.cs:48 compares under the current culture.
- Concurrency: none is modelled. The source runs one request queue at a time.
- The command-line front end is not part of this model.
