# JFR method tracing, modelled in Dafny

This project models the method-tracing subsystem of JDK Flight Recorder. It proves properties of that model.

On the native side, three things are modelled:

- **Filters.** A set of parallel arrays of class, method and annotation names, each with a modification word (bit 0 timing, bit 1 tracing, -1 no match). The filter decides which classes and methods are instrumented, and how.
- **The method processor.** It picks a class's methods and builds their traced-method records.
- **The method tracer.** It installs filters, and keeps the list of instrumented classes with the sticky and timing trace bits on classes and methods.

On the Java side, `PlatformTracer` keeps two things:

- the registry of timed methods and classes;
- the trace and timing filter lists it flattens into arrays for the JVM.

How the program's structure maps onto the model:

- Each source file is a module:
  - `Filters` for `jfrFilter.cpp`;
  - `MethodProcessors` for `jfrMethodProcessor.cpp`;
  - `MethodTracers` for `jfrMethodTracer.cpp`;
  - `TraceTagging` for `jfrTraceTagging.cpp`;
  - `ClassFilterClosures` for `jfrClassFilterClosure.cpp`;
  - `TracedMethods` for `jfrTracedMethod.hpp`;
  - `TraceIdExtension` for `jfrTraceIdExtension.hpp`;
  - `PlatformTracers` for `PlatformTracer.java`.
- `Modifications` holds the arithmetic of modification words.
- `Vm` holds the runtime entities the core reads and tags: classes, methods, module entries and the epoch tag state.
- `InstrumentedClasses` holds the `JfrInstrumentedClass` list.
- Objects whose fields the source updates are classes, and their methods carry `modifies` clauses. The static state of `JfrMethodTracer`, `JfrFilterManager` and `PlatformTracer` becomes the fields of one object each.
- Each loop is a `while` or `for` loop with invariants. It is proved against a recursive specification function, and lemmas about that function state what the source promises.
- Modification words are `bv32` bit patterns, and -1 is `0xFFFF_FFFF`. Java `long` counters wrap explicitly.

Where the code and its comments disagree, the model follows the code.

The previous filter is folded into a method's selection starting from the new filter's class modifications (`jfrMethodProcessor.cpp` line 94). The previous filter's class modifications are computed at line 85 and never used. The model does the same, and `MethodProcessors.PreviousClassMatchIgnored` states the consequence.

## Model

| member | source | states |
|---|---|---|
| Modifications.CombineBitsIdentity | src/hotspot/share/jfr/support/methodtracer/jfrFilter.cpp:147-155 | -1 is an identity on both sides, and two other words combine to their bitwise or |
| Modifications.CombineBitsCommutative | src/hotspot/share/jfr/support/methodtracer/jfrFilter.cpp:147-155 | combining is commutative for all words |
| Modifications.CombineBitsAssociative | src/hotspot/share/jfr/support/methodtracer/jfrFilter.cpp:147-155 | combining is associative for non-negative words and -1 |
| Modifications.CombineBitsNoMatch | src/hotspot/share/jfr/support/methodtracer/jfrFilter.cpp:147-155 | on that domain the result is -1 exactly when both inputs are -1, and stays in the domain |
| Modifications.CombineBitsOutsideDomain | src/hotspot/share/jfr/support/methodtracer/jfrFilter.cpp:147-155 | outside the domain, combining two words that are not -1 can still give -1 (-2 with 1) |
| Modifications.FoldIsUnion | src/hotspot/share/jfr/support/methodtracer/jfrFilter.cpp:163-174 | accumulating the matching entries with combine_bits gives -1 when none match, and otherwise the bitwise union of the matching modifications, for filters whose modification words are all non-negative (what `ToInt` produces) |
| Modifications.SelectedEmpty | src/hotspot/share/jfr/support/methodtracer/jfrFilter.cpp:163-174 | the selected modifications are empty exactly when no entry matches |
| Modifications.SelectedContains | src/hotspot/share/jfr/support/methodtracer/jfrFilter.cpp:163-174 | every matching entry's modification is among those combined |
| Modifications.FoldInDomain | src/hotspot/share/jfr/support/methodtracer/jfrFilter.cpp:163-174 | with non-negative modifications the accumulated result is non-negative or -1 |
| Filters.ModuleRule | src/hotspot/share/jfr/support/methodtracer/jfrFilter.cpp:64-79 | a missing or unnamed module is instrumentable; of named modules exactly jdk.jfr and jdk.proxy1 are refused |
| Filters.StickyOverridesExclusions | src/hotspot/share/jfr/support/methodtracer/jfrFilter.cpp:81-118 | the sticky bit admits a class or method before any exclusion is checked; otherwise a class is refused when it is hidden, a JFR event or Continuation, or its module is refused, and a method when it is abstract, synthetic, native or a compiled lambda form |
| Filters.MatchAnnotations | src/hotspot/share/jfr/support/methodtracer/jfrFilter.cpp:120-145 | the loop finds the annotation exactly when the annotation array exists and holds it |
| Filters.ClassModifications | src/hotspot/share/jfr/support/methodtracer/jfrFilter.cpp:157-175 | the loop computes the class modifications; -1 when the class has no annotations |
| Filters.ClassModificationsMeaning | src/hotspot/share/jfr/support/methodtracer/jfrFilter.cpp:157-175 | class modifications are -1 exactly when no annotation entry matches the class, otherwise the union of the matching entries, for filters whose modification words are all non-negative (what `ToInt` produces) |
| Filters.ClassBitsNeedAnnotations | src/hotspot/share/jfr/support/methodtracer/jfrFilter.cpp:159-162 | a class with no annotations array has class modifications -1 |
| Filters.MethodModifications | src/hotspot/share/jfr/support/methodtracer/jfrFilter.cpp:192-213 | the loop computes the method modifications |
| Filters.MethodModificationsMeaning | src/hotspot/share/jfr/support/methodtracer/jfrFilter.cpp:192-213 | method modifications are -1 exactly when no entry matches; otherwise the union, including every matching entry's modification. An annotation entry matches only by annotation; otherwise null names are wildcards and a named method must be instrumentable. This holds for filters whose modification words are all non-negative (what `ToInt` produces) |
| Filters.Match | src/hotspot/share/jfr/support/methodtracer/jfrFilter.cpp:177-190 | match is true exactly when the class modifications are not -1 or some method's modifications are not -1 |
| Filters.ModificationText | src/hotspot/share/jfr/support/methodtracer/jfrFilter.cpp:224-232 | 1, 2 and 3 print their bits, timing first; every other value prints "-timing -tracing" |
| Filters.FilterManager.constructor | src/hotspot/share/jfr/support/methodtracer/jfrFilter.cpp:303 | there is no current filter, and both previous lists are empty |
| Filters.FilterManager.AddPreviousFilter | src/hotspot/share/jfr/support/methodtracer/jfrFilter.cpp:297-301 | a non-null filter is appended to the current epoch's previous list; nothing else changes |
| Filters.FilterManager.Install | src/hotspot/share/jfr/support/methodtracer/jfrFilter.cpp:309-313 | the new filter becomes current, and the replaced one, if any, joins the current epoch's previous list |
| Filters.FilterManager.ClearPreviousFilters | src/hotspot/share/jfr/support/methodtracer/jfrFilter.cpp:323-325 | only the previous epoch's list is emptied |
| Filters.FilterManager.InstallArrays | src/hotspot/share/jfr/support/methodtracer/jfrFilter.cpp:327-364 | installing from arrays succeeds exactly when the four lengths agree; on failure nothing changes |
| MethodProcessors.CombinedRequests | src/hotspot/share/jfr/support/methodtracer/jfrMethodProcessor.cpp:42-48 | is_timing and is_tracing of a combined word are the disjunction of those of its parts |
| MethodProcessors.SetsTimingMeaning | src/hotspot/share/jfr/support/methodtracer/jfrMethodProcessor.cpp:116-123 | set_timing's test is is_timing on non-negative words; a negative word with bit 0 set does not count |
| MethodProcessors.SetTiming | src/hotspot/share/jfr/support/methodtracer/jfrMethodProcessor.cpp:116-123 | has_timing becomes true when the modification is positive with bit 0 set, and never resets |
| MethodProcessors.SelectMethod | src/hotspot/share/jfr/support/methodtracer/jfrMethodProcessor.cpp:91-99 | the per-method test and the new modification equal their specification |
| MethodProcessors.SelectionMeaning | src/hotspot/share/jfr/support/methodtracer/jfrMethodProcessor.cpp:89-99 | an instrumentable method is selected exactly when the new filter matches its class or it, or the previous filter matches the method, for filters whose modification words are all non-negative (what `ToInt` produces) |
| MethodProcessors.PreviousMatchKept | src/hotspot/share/jfr/support/methodtracer/jfrMethodProcessor.cpp:94-99 | a method the previous filter matched keeps its record even when the new filter drops it |
| MethodProcessors.PreviousClassMatchIgnored | src/hotspot/share/jfr/support/methodtracer/jfrMethodProcessor.cpp:84-99 | a class-annotation match of the previous filter alone does not select a method |
| MethodProcessors.ExpectedShape | src/hotspot/share/jfr/support/methodtracer/jfrMethodProcessor.cpp:86-111 | the records are exactly those of the selected methods, one each, in strictly increasing method-array order, each with the method's index and its new modification (-1 stored as 0) |
| MethodProcessors.TimingMeaning | src/hotspot/share/jfr/support/methodtracer/jfrMethodProcessor.cpp:104-105 | has_timing is raised exactly when some record's modification is positive with bit 0 set |
| MethodProcessors.MethodProcessor.constructor | src/hotspot/share/jfr/support/methodtracer/jfrMethodProcessor.cpp:34-40 | a new processor has no method list and no timing |
| MethodProcessors.MethodProcessor.ProcessMethod | src/hotspot/share/jfr/support/methodtracer/jfrMethodProcessor.cpp:89-111 | one turn of the loop: a selected method gets a fresh record without a method, the list is created on first use, and has_timing is updated; an unselected method changes nothing |
| MethodProcessors.MethodProcessor.AppendRecord | src/hotspot/share/jfr/support/methodtracer/jfrMethodProcessor.cpp:100-107 | the list is created if need be, the timing flag follows the new modification, and a fresh record for the method is appended with -1 stored as 0 |
| MethodProcessors.MethodProcessor.ProcessMethods | src/hotspot/share/jfr/support/methodtracer/jfrMethodProcessor.cpp:86-113 | the loop appends the expected records to the list, which stays null when none is expected, and has_timing is updated accordingly |
| MethodProcessors.MethodProcessor.Process | src/hotspot/share/jfr/support/methodtracer/jfrMethodProcessor.cpp:78-114 | a class the filter cannot instrument is left untouched; otherwise the expected records are appended |
| MethodProcessors.MethodProcessor.UpdateMethods | src/hotspot/share/jfr/support/methodtracer/jfrMethodProcessor.cpp:125-131 | every record gets the method at its index in the class's methods array |
| MethodProcessors.ChangeTextAsWritten | src/hotspot/share/jfr/support/methodtracer/jfrMethodProcessor.cpp:50-59 | the log text as written: a timing change replaces the tracing change, and the timing part is always empty |
| MethodProcessors.ChangeTextLosesTracing | src/hotspot/share/jfr/support/methodtracer/jfrMethodProcessor.cpp:54-59 | from -1 to 3 the text as written is "+timing ", and the tracing change goes unreported |
| MethodProcessors.ChangeTextReportsBoth | src/hotspot/share/jfr/support/methodtracer/jfrMethodProcessor.cpp:52-59 | the corrected text reports the tracing change, then the timing change, and is empty exactly when neither changed; a single change yields exactly its own word |
| TracedMethods.TracedMethod.constructor | src/hotspot/share/jfr/support/methodtracer/jfrTracedMethod.hpp:48-51 | the record takes the method's id, name and signature, the given modification and index, and has no method set |
| TracedMethods.TracedMethod.Default | src/hotspot/share/jfr/support/methodtracer/jfrTracedMethod.hpp:53-55 | the default record is all zero and null |
| TracedMethods.TracedMethod.GetMethod | src/hotspot/share/jfr/support/methodtracer/jfrTracedMethod.hpp:69-72 | the method may only be read once set, and is the one set |
| TracedMethods.TracedMethod.SetMethodFromKlass | src/hotspot/share/jfr/support/methodtracer/jfrTracedMethod.hpp:74-78 | the method becomes the one at the record's index in the class's methods; the constant fields are unchanged |
| TraceIdExtension.TraceFlag.constructor | src/hotspot/share/jfr/support/jfrTraceIdExtension.hpp:47-53 | a new word holds both epoch bits, 512 and 256 |
| TraceIdExtension.ClearedEpochBitsLayout | src/hotspot/share/jfr/support/jfrTraceIdExtension.hpp:47-56 | a fresh word has bits 256 and 512 and no others; its flags byte is 0 and its meta byte is 3 |
| TraceIdExtension.TraceFlag.IsSet | src/hotspot/share/jfr/support/jfrTraceIdExtension.hpp:54-56 | a flag is set exactly when one of its bits is in the byte `flags_addr` views or the byte `meta_addr` views, on either byte order |
| TraceIdExtension.TraceFlag.Flags | src/hotspot/share/jfr/support/jfrTraceIdExtension.hpp:58-60 | the word is the byte `meta_addr` views above the byte `flags_addr` views, on either byte order |
| TraceIdExtension.TraceFlag.SetFlags | src/hotspot/share/jfr/support/jfrTraceIdExtension.hpp:58-64 | a later flags() returns the value set |
| TraceIdExtension.TraceFlag.FlagsByte | src/hotspot/share/jfr/support/jfrTraceIdExtension.hpp:66-72 | flags_addr views the low-order byte on either byte order |
| TraceIdExtension.TraceFlag.MetaByte | src/hotspot/share/jfr/support/jfrTraceIdExtension.hpp:74-80 | meta_addr views the high-order byte on either byte order |
| TraceIdExtension.ByteViewsPartitionWord | src/hotspot/share/jfr/support/jfrTraceIdExtension.hpp:66-80 | the two views are different bytes of the word, and together give it back |
| TraceIdExtension.TraceFlag.CopyTraceFlags | src/hotspot/share/jfr/support/jfrTraceIdExtension.hpp:101-105 | the destination takes the source's flags |
| ClassFilterClosures.FilterClassClosure.constructor | src/hotspot/share/jfr/support/methodtracer/jfrClassFilterClosure.cpp:33-38 | the closure keeps both filters and starts with an empty list |
| ClassFilterClosures.FilterClassClosure.Match | src/hotspot/share/jfr/support/methodtracer/jfrClassFilterClosure.cpp:62-69 | a class matches exactly when it is instrumentable and the previous filter (when present) or the new filter matches it |
| ClassFilterClosures.NoPreviousFilter | src/hotspot/share/jfr/support/methodtracer/jfrClassFilterClosure.cpp:62-69 | with no previous filter only the new filter decides |
| ClassFilterClosures.NewFilterSuffices | src/hotspot/share/jfr/support/methodtracer/jfrClassFilterClosure.cpp:62-69 | a class the new filter takes is collected whatever the previous filter |
| ClassFilterClosures.FilterClassClosure.DoKlass | src/hotspot/share/jfr/support/methodtracer/jfrClassFilterClosure.cpp:46-55 | an instance class that matches is appended; others leave the list unchanged |
| ClassFilterClosures.FilterClassClosure.IterateAllClasses | src/hotspot/share/jfr/support/methodtracer/jfrClassFilterClosure.cpp:71-73 | the visited classes that match are appended in visit order |
| ClassFilterClosures.MatchingClassesMeaning | src/hotspot/share/jfr/support/methodtracer/jfrClassFilterClosure.cpp:46-55 | exactly the matching instance classes are collected, no more than were visited |
| InstrumentedClasses.AppendKeepsWellFormed | src/hotspot/share/jfr/support/methodtracer/jfrMethodTracer.cpp:230-231 | appending an absent class keeps the list free of duplicates |
| InstrumentedClasses.InstrumentedList.constructor | src/hotspot/share/jfr/support/methodtracer/jfrMethodTracer.cpp:273 | a new list is empty |
| InstrumentedClasses.InstrumentedList.Append | src/hotspot/share/jfr/support/methodtracer/jfrMethodTracer.cpp:262 | the entry goes at the end, and its index is the old length |
| InstrumentedClasses.InstrumentedList.Clear | src/hotspot/share/jfr/support/methodtracer/jfrTraceTagging.cpp:133 | the list becomes empty |
| InstrumentedClasses.WellFormedKlassesDistinct | src/hotspot/share/jfr/support/methodtracer/jfrTraceTagging.cpp:122-126 | in a duplicate-free list, different entries have different classes, so each class is cleared once |
| InstrumentedClasses.WellFormedMethodsDistinct | src/hotspot/share/jfr/support/methodtracer/jfrTraceTagging.cpp:122-126 | in a duplicate-free list, a method of one entry's class is not a method of another entry's class, so clearing one class leaves the others' methods alone |
| InstrumentedClasses.InstrumentedList.Find | src/hotspot/share/jfr/support/methodtracer/jfrMethodTracer.cpp:230 | find gives -1 exactly when no entry has the trace id, and otherwise the first index that does |
| TraceTagging.TagDynamicKlass | src/hotspot/share/jfr/support/methodtracer/jfrTraceTagging.cpp:138-140 | the class is dynamically tagged; nothing else of it changes |
| TraceTagging.TagDynamicMethod | src/hotspot/share/jfr/support/methodtracer/jfrTraceTagging.cpp:148-150 | the method is dynamically tagged; nothing else of it changes |
| TraceTagging.TagStickyKlass | src/hotspot/share/jfr/support/methodtracer/jfrTraceTagging.cpp:152-156 | a class, which must not be sticky, becomes sticky; its other bits are untouched |
| TraceTagging.TagStickyMethod | src/hotspot/share/jfr/support/methodtracer/jfrTraceTagging.cpp:164-168 | a method, which must not be sticky, becomes sticky |
| TraceTagging.TagTiming | src/hotspot/share/jfr/support/methodtracer/jfrTraceTagging.cpp:170-174 | a class, which must not be timed, gets the timing bit |
| TraceTagging.TagStickyMethods | src/hotspot/share/jfr/support/methodtracer/jfrTraceTagging.cpp:158-162 | every record's method becomes sticky; the methods must be distinct and not sticky |
| TraceTagging.TagDynamicMethods | src/hotspot/share/jfr/support/methodtracer/jfrTraceTagging.cpp:142-146 | every record's method is dynamically tagged, and no sticky bit changes |
| TraceTagging.SetDynamicTag | src/hotspot/share/jfr/support/methodtracer/jfrTraceTagging.cpp:36-42 | the records' methods and the class are dynamically tagged |
| TraceTagging.SetDynamicTagForStickyBit | src/hotspot/share/jfr/support/methodtracer/jfrTraceTagging.cpp:44-57 | exactly the sticky methods of a sticky class are tagged, then the class; no sticky bit changes |
| TraceTagging.SetStickyBit | src/hotspot/share/jfr/support/methodtracer/jfrTraceTagging.cpp:71-78 | the records' methods and the class become sticky; no dynamic tag changes |
| TraceTagging.InstallStickyBitForRetransformKlass | src/hotspot/share/jfr/support/methodtracer/jfrTraceTagging.cpp:59-69 | like set_sticky_bit, and the class has the timing bit exactly when it had it or timing is asked for |
| TraceTagging.ClearStickyBit | src/hotspot/share/jfr/support/methodtracer/jfrTraceTagging.cpp:80-108 | afterwards neither the class nor any of its methods is sticky and the class is not timed; only when asked, the class and the methods that were sticky are tagged |
| TraceTagging.ClearEntry | src/hotspot/share/jfr/support/methodtracer/jfrTraceTagging.cpp:122-126 | one turn of the loop: the entry's class is cleared, it and its methods that were sticky are tagged only when asked, and the other entries' classes and methods are unchanged |
| TraceTagging.Clear | src/hotspot/share/jfr/support/methodtracer/jfrTraceTagging.cpp:110-134 | an empty list is left as it is; otherwise the tag state is reset and the list ends empty. Every live entry's class and methods lose their sticky bits and the class its timing bit; only when asked, the class and the methods that were sticky are tagged. Entries of unloaded classes keep all their bits |
| MethodTracers.TimingIdsMeaning | src/hotspot/share/jfr/support/methodtracer/jfrMethodTracer.cpp:117-126 | an id is collected exactly when a live entry with that id has a timed class |
| MethodTracers.NoTimingNoIds | src/hotspot/share/jfr/support/methodtracer/jfrMethodTracer.cpp:117-126 | with no live timed class nothing is collected |
| MethodTracers.LiveEntriesMeaning | src/hotspot/share/jfr/support/methodtracer/jfrMethodTracer.cpp:313-327 | the kept entries are exactly the live ones, and the kept and moved add up to the original length |
| MethodTracers.UnloadedIdsMeaning | src/hotspot/share/jfr/support/methodtracer/jfrMethodTracer.cpp:313-327 | the moved ids are exactly those of the unloaded entries |
| MethodTracers.TrimPartitions | src/hotspot/share/jfr/support/methodtracer/jfrMethodTracer.cpp:313-327 | the kept entries and the moved ids add up to the original length; exactly the live entries are kept, and exactly the ids of the unloaded ones are moved |
| MethodTracers.LiveEntriesWellFormed | src/hotspot/share/jfr/support/methodtracer/jfrMethodTracer.cpp:313-327 | the kept entries are still free of duplicates |
| MethodTracers.MethodTracer.constructor | src/hotspot/share/jfr/support/methodtracer/jfrMethodTracer.cpp:57-61 | no filter, and neither list exists |
| MethodTracers.MethodTracer.InUse | src/hotspot/share/jfr/support/methodtracer/jfrMethodTracer.cpp:71-75 | `in_use`, a filter is installed. It has no contract of its own: every method of the tracer keeps `filter` or sets it to a filter, so once in use the tracer stays in use, as the comment at line 72 says |
| MethodTracers.MethodTracer.CurrentFilter | src/hotspot/share/jfr/support/methodtracer/jfrMethodTracer.cpp:155-158 | there is a current filter exactly when the tracer is in use |
| MethodTracers.MethodTracer.InstrumentedClasses | src/hotspot/share/jfr/support/methodtracer/jfrMethodTracer.cpp:270-277 | both lists are created together on first use, and are kept afterwards |
| MethodTracers.MethodTracer.SetFilterPair | src/hotspot/share/jfr/support/methodtracer/jfrMethodTracer.cpp:146-153 | the previous filter is set and the new filter becomes current |
| MethodTracers.MethodTracer.CollectMatchingClasses | src/hotspot/share/jfr/support/methodtracer/jfrMethodTracer.cpp:84-88 | the closure collects exactly the loaded classes either filter matches, in visit order, and nothing else changes |
| MethodTracers.MethodTracer.ClearAndInstall | src/hotspot/share/jfr/support/methodtracer/jfrMethodTracer.cpp:89-92 | the instrumented classes are cleared as `TraceTagging.Clear` states, the list is empty and the tag state reset, and the new filter is current with the given previous one. The unloaded-id list is kept, or allocated empty with the list |
| MethodTracers.MethodTracer.BeginSetFilters | src/hotspot/share/jfr/support/methodtracer/jfrMethodTracer.cpp:77-92 | a filter that could not be built changes nothing; otherwise the classes either filter matches are returned, the list is empty, and the new filter is current with the old one as previous. The instrumented classes are cleared as `TraceTagging.Clear` states: live entries lose their sticky and timing bits and are tagged only when asked, and unloaded entries keep all their bits. The unloaded-id list is kept, or allocated empty with the list |
| MethodTracers.MethodTracer.FinishSetFilters | src/hotspot/share/jfr/support/methodtracer/jfrMethodTracer.cpp:92-103 | the previous filter is dropped, the newly timed classes are returned (none when empty), and none remain to collect; live entries lose their timing bit, and every entry keeps its sticky bit and dynamic tag. The unloaded-id list is kept, or allocated empty with the list |
| MethodTracers.MethodTracer.CollectNewTimingEntries | src/hotspot/share/jfr/support/methodtracer/jfrMethodTracer.cpp:105-129 | the ids of the live timed classes are returned in list order and their timing bits cleared, so a second call returns nothing; sticky bits and dynamic tags stay as they were. The unloaded-id list is kept, or allocated empty with the list |
| MethodTracers.MethodTracer.OnKlassRedefinition | src/hotspot/share/jfr/support/methodtracer/jfrMethodTracer.cpp:214-238 | when not recording the class loses its sticky and timing bits and keeps its dynamic tags, and the list and the unloaded ids are untouched; otherwise it is appended only if absent, then the first entry sets the tag state and an appended class and its sticky methods are tagged; the unloaded-id list is kept, or allocated empty with the list |
| MethodTracers.MethodTracer.AddRedefinedClass | src/hotspot/share/jfr/support/methodtracer/jfrMethodTracer.cpp:226-237 | the class is appended only if absent; the first entry sets the tag state; an appended class and its sticky methods are tagged, and no sticky bit changes. The unloaded-id list is kept, or allocated empty with the list |
| MethodTracers.MethodTracer.AddInstrumentedClass | src/hotspot/share/jfr/support/methodtracer/jfrMethodTracer.cpp:252-268 | an absent class is tagged, made sticky with its methods, and appended; it is present afterwards; the first entry sets the tag state. The unloaded-id list is kept, or allocated empty with the list |
| MethodTracers.MethodTracer.TagNewClass | src/hotspot/share/jfr/support/methodtracer/jfrMethodTracer.cpp:259-260 | the class gets its dynamic tag and sticky bit, and so does every traced method |
| MethodTracers.MethodTracer.AppendClass | src/hotspot/share/jfr/support/methodtracer/jfrMethodTracer.cpp:262-266 | an absent class is appended keeping the list duplicate-free; the first entry sets the tag state. The unloaded-id list is kept, or allocated empty with the list |
| MethodTracers.MethodTracer.DrainStaleClassIds | src/hotspot/share/jfr/support/methodtracer/jfrMethodTracer.cpp:279-289 | no ids when not in use or when the id list is missing or empty; otherwise a copy of the list, which is not changed |
| MethodTracers.MethodTracer.TrimInstrumentedClasses | src/hotspot/share/jfr/support/methodtracer/jfrMethodTracer.cpp:313-327 | the list is rebuilt from the live entries in order, and the unloaded ids are appended to the unloaded-id list |
| MethodTracers.MethodTracer.ClearInstrumentedClasses | src/hotspot/share/jfr/support/methodtracer/jfrMethodTracer.cpp:305-311 | an existing list is cleared: the live entries lose their sticky and timing bits, no class or method is tagged, and unloaded entries keep all their bits |
| PlatformTracers.AddLong | src/jdk.jfr/share/classes/jdk/jfr/internal/tracing/PlatformTracer.java:142-143 | long addition is exact within range and congruent modulo 2^64 otherwise |
| PlatformTracers.UpdateTimingMeaning | src/jdk.jfr/share/classes/jdk/jfr/internal/tracing/PlatformTracer.java:82-107 | after an update the method is timed exactly when timing was asked for; a new entry starts at zero and is listed by its class; an entry that stays keeps its counters; other methods are unchanged |
| PlatformTracers.LatestUpdateWins | src/jdk.jfr/share/classes/jdk/jfr/internal/tracing/PlatformTracer.java:82-107 | after a series of updates a method is timed exactly when the last update concerning it asked for timing; methods no update concerns keep their entries |
| PlatformTracers.RemoveClassesMeaning | src/jdk.jfr/share/classes/jdk/jfr/internal/tracing/PlatformTracer.java:184-200 | exactly the listed classes and the methods they list are dropped; everything else keeps its entry |
| PlatformTracers.UpdateKeepsConsistent | src/jdk.jfr/share/classes/jdk/jfr/internal/tracing/PlatformTracer.java:82-107 | an update keeps every timed method listed by its class and only by it, provided a known method id stays with its class |
| PlatformTracers.RemovalsKeepConsistent | src/jdk.jfr/share/classes/jdk/jfr/internal/tracing/PlatformTracer.java:184-200 | removing any series of classes keeps the registry consistent |
| PlatformTracers.RemovalKeepsConsistent | src/jdk.jfr/share/classes/jdk/jfr/internal/tracing/PlatformTracer.java:189-194 | removing a class and its methods keeps every timed method listed by its class |
| PlatformTracers.ToInt | src/jdk.jfr/share/classes/jdk/jfr/internal/tracing/PlatformTracer.java:177 | a modification's integer has bit 0 for timing and bit 1 for tracing |
| PlatformTracers.ValidFilterKept | src/jdk.jfr/share/classes/jdk/jfr/internal/tracing/PlatformTracer.java:147-149 | when a text's validity does not depend on the modification, `isValidFilter` holds exactly when `makeFilters` keeps one filter for the text, and fails exactly when it keeps none |
| PlatformTracers.ParsedFiltersMeaning | src/jdk.jfr/share/classes/jdk/jfr/internal/tracing/PlatformTracer.java:228-237 | exactly the filters of the valid texts are kept, at most one per text |
| PlatformTracers.PlatformTracer.constructor | src/jdk.jfr/share/classes/jdk/jfr/internal/tracing/PlatformTracer.java:49-54 | empty maps and filter lists |
| PlatformTracers.ObjectAfterUpdates | src/jdk.jfr/share/classes/jdk/jfr/internal/tracing/PlatformTracer.java:86-95 | the `OBJECT` entry after a run of updates is the old one or the id of a timed `java.lang.Object::<init>` among them |
| PlatformTracers.PlatformTracer.OnMethodTrace | src/jdk.jfr/share/classes/jdk/jfr/internal/tracing/PlatformTracer.java:56-80 | an excluded class of the boot loader, or a failed generation, returns null and changes nothing; otherwise every reported method's timing is updated in turn, the `OBJECT` entry is as `ObjectAfterUpdates` gives it, and the bytecode is returned |
| PlatformTracers.PlatformTracer.UpdateTiming | src/jdk.jfr/share/classes/jdk/jfr/internal/tracing/PlatformTracer.java:82-107 | the registry changes as the update specifies and stays consistent when it was, and OBJECT is set when Object's constructor becomes timed |
| PlatformTracers.PlatformTracer.AddTiming | src/jdk.jfr/share/classes/jdk/jfr/internal/tracing/PlatformTracer.java:139-145 | an unknown id changes nothing; a known one counts one more invocation and the duration, with long wrap-around, and no other entry changes |
| PlatformTracers.PlatformTracer.RemoveClasses | src/jdk.jfr/share/classes/jdk/jfr/internal/tracing/PlatformTracer.java:184-200 | a null array changes nothing; otherwise the registry loses the listed classes and their methods, and stays consistent when it was |
| PlatformTracers.PlatformTracer.PublishClass | src/jdk.jfr/share/classes/jdk/jfr/internal/tracing/PlatformTracer.java:211-218 | an unknown class changes nothing; a known one becomes published |
| PlatformTracers.PlatformTracer.PublishClasses | src/jdk.jfr/share/classes/jdk/jfr/internal/tracing/PlatformTracer.java:202-209 | exactly the listed known classes become published; nothing else changes |
| PlatformTracers.PlatformTracer.Reset | src/jdk.jfr/share/classes/jdk/jfr/internal/tracing/PlatformTracer.java:239-242 | both maps become empty |
| PlatformTracers.PlatformTracer.HasFilters | src/jdk.jfr/share/classes/jdk/jfr/internal/tracing/PlatformTracer.java:220-222 | there are filters exactly when one of the two lists is not empty |
| PlatformTracers.PlatformTracer.FilterCount | src/jdk.jfr/share/classes/jdk/jfr/internal/tracing/PlatformTracer.java:224-226 | the count is the length of both lists together |
| PlatformTracers.PlatformTracer.MakeFilters | src/jdk.jfr/share/classes/jdk/jfr/internal/tracing/PlatformTracer.java:228-237 | the loop keeps the valid filters in text order |
| PlatformTracers.PlatformTracer.ApplyFilter | src/jdk.jfr/share/classes/jdk/jfr/internal/tracing/PlatformTracer.java:155-182 | only the axes named are replaced; no JVM call when there were no filters before or after; otherwise one array entry per filter, trace filters first |

## Left out

- `JfrFilter::from`, `JfrJavaSupport` and JNI array creation are not modelled: `set_filters` takes the built filter as an `Option`, and `InstallArrays` takes the four arrays as sequences.
- The JVMTI retransformation call (`jfrMethodTracer.cpp` lines 131-144) is foreign code. The public `set_filters` is therefore split into `BeginSetFilters` and `FinishSetFilters`. The callbacks that the retransformation triggers (`OnKlassRedefinition`, `AddInstrumentedClass`) can run in between.
- `on_klass_creation` and `jdk_jfr_module` are not modelled. They consist of class-file rewriting, upcalls to Java and module lookup. The parts they rely on are modelled: `Process`, `UpdateMethods`, `InstallStickyBitForRetransformKlass` and `AddInstrumentedClass`.
- `ik->module()->add_read(...)` in `add_instrumented_class` is a module-graph update and is not modelled.
- `JfrKlassUnloading::is_unloaded` and `JfrRecorder::is_recording` are runtime queries. They become parameters: a set of unloaded trace ids, and a flag.
- The loaded classes and their visit order are a parameter of `IterateAllClasses`.
- The default value of `clear`'s `dynamic_tag` argument is declared in `jfrTraceTagging.hpp`, which is not part of this model. `BeginSetFilters` therefore takes the argument as a parameter.
- `jfrInstrumentedClass.hpp` is not part of this model. `InstrumentedClasses.SameClass` takes the equality that `find` uses to be equality of trace ids. `trace_id_as_jlong` is taken to be the trace id.
- `Method::method_holder()` is not part of this model. Every method in a class's methods array is taken to be declared by that class (`Vm.OwnsMethods`). So the classes of different list entries have no method in common.
- `JfrInstrumentedClass`'s `unloaded` flag: the model creates every entry with it false, as the source does (`jfrMethodTracer.cpp` lines 227 and 261). The code that sets it is not part of this model. So `TrimInstrumentedClasses` removes entries only from states where the flag was set elsewhere. The flag is unrelated to the set of unloaded trace ids that `Clear` and `CollectNewTimingEntries` take.
- `METHOD_ID(ik, m)` is not part of this model. The id is a constant attribute of the method.
- Dynamic tagging through the trace-id load barriers is modelled as a boolean on the class or method.
- Annotation iteration (`JfrAnnotationIterator`) is modelled as a list of annotation symbols. Symbols are compared by their text.
- All logging is left out: debug messages, `JfrFilter::log` beyond its modification text, and the message of `JfrMethodProcessor`'s `log` beyond its change text.
- Locks, atomics, safepoint assertions and `ConcurrentHashMap` are left out. The model is sequential.
- Memory management is left out: deleting filters and growable arrays, C-heap arrays, and symbol reference counts.
- MethodProcessors.MethodProcessor.Process: its ensures give the values of the appended records but not that they are fresh objects with no method set. `ProcessMethod` states both for each record it appends.
- `Instrumentation`, `ExcludeList`, `Filter.of`, `Bytecode.internalName`/`descriptorName`, `TimedClass` and `TimedMethod` are not part of this model.
  - The outcome of the bytecode generation is a parameter of `OnMethodTrace`. An error in it changes nothing.
  - Filter parsing is a function parameter.
  - The names go into the arrays as the filters hold them.
  - A timed class keeps the ids of its timed methods and a published flag. A timed method keeps two long counters.
- Java arrays filled by index are modelled as sequences.
- `setFilters` in `PlatformTracer` composes `ApplyFilter`, the JVM call and `PublishClasses`. The JVM call is foreign, so `setFilters` itself is not modelled.
- `addObjectTiming` updates the `OBJECT` entry directly, even after it has left the map. The model records only which id `OBJECT` names (`objectEntry`).
- `emitTiming` emits events and is left out. Its first step, `removeClasses(JVM.drainStaleMethodTracerIds())`, is `RemoveClasses` applied to the result of `DrainStaleClassIds`.
- `initialize` reads class bytes and runs a warm-up loop, and is left out. It ends with `Reset`.

## Findings

| source | as written | input that shows it | evidently intended | confidence | as-written member | corrected member |
|---|---|---|---|---|---|---|
| src/hotspot/share/jfr/support/methodtracer/jfrMethodProcessor.cpp:57-58 | A change in timing is assigned to `tracing`, overwriting a tracing change. `timing` stays "". | previous -1, new 3: the message says "+timing " and omits "+tracing " | Assign the timing change to `timing`, so that the message reports both changes | high, not executed | MethodProcessors.ChangeTextAsWritten (ChangeTextLosesTracing) | MethodProcessors.ChangeText (ChangeTextReportsBoth) |
