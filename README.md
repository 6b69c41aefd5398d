# numdiff in Dafny

numdiff compares two text files and tolerates small differences between the
numbers in them. A line compares equal when:

- it matches the other line literally, or
- it is ignored by a pattern, or
- it splits into as many tokens as the other line, and every pair of tokens
  either matches literally or holds numbers within an absolute error `aeps`
  plus a relative error `reps`.

This project models the following parts of that program and proves what they
promise:

- **`DiffList`** (lib/numdiff/difflist.py). It builds an edit list of
  `(kind, ai, aj, bi, bj)` opcodes:
  - it merges contiguous opcodes of the same kind;
  - it refuses same-kind opcodes that are not contiguous;
  - it cuts `replace` spans into chunks of at most `maxchunk` lines.
- **`Main.lstcomp`** (lib/numdiff/__init__.py). It aligns two name lists,
  which it sorts itself (lib/numdiff/__init__.py:175-176), into `(left, right)` pairs, with `None` marking names found on one
  side only. The same file's helpers are modelled too:
  - `shorttree`, which gives the names of one directory-walk step relative
    to the walk's root;
  - `iscomment`;
  - the comment-skipping, white-space-collapsing `CFile` reader;
  - the file-kind decision of `deepcheck`.
- **`CmpLine`** (lib/numdiff/cmpline.py). This is the tolerant line
  comparison. The model covers:
  - its option handling;
  - the default splitter `' *, *| +'`;
  - the four-step `__cmp__`;
  - `fequals`.
- **The older numdiff.py**, which holds:
  - the bounded history buffer `RrList`;
  - the `DiffContext` state machine, whose reports are a log of written
    strings;
  - `NumDiff.compare`, which walks the line pairs up to the end of the
    shorter file.

These parts of the source compute a value step by step, and the model keeps
that form: each is a method with a loop or a state change. Each method is
proved equal to a recursive specification function, and the properties are
proved as lemmas about those functions. The classes in the model are the ones
the source mutates (`DiffList`, `CFile`, `CmpLine`, `RrList`,
`DiffContext`, `NumDiff`). Pure helpers are functions.

Files:

| file | module | models |
|---|---|---|
| wrappers.dfy | Wrappers | `Option`, `Result`, `Outcome` (an exception or normal return) |
| strings.dfy | Strings | `str.strip`, `str.split()`, `re.split(r'\s+')`, `join`, `startswith`, `%d` |
| lexical.dfy | Lexical | the `_FLOAT` and `_INT` patterns, as prefix matchers |
| difflist.dfy | DiffLists | `DiffList`, `prepres` |
| lstcomp.dfy | ListComparison | `Main.lstcomp` |
| lstcomp_examples.dfy | ListComparisonExamples | the documented `lstcomp` results |
| trees.dfy | Trees | `posixpath.split`/`join`, `Main.shorttree`, the `deepcheck` decision |
| trees_examples.dfy | TreesExamples | the `shorttree` doctests |
| cfile.dfy | CommentFilter | `Main.iscomment`, `CFile` |
| cmpline.dfy | LineComparison | `CmpLine` |
| legacy.dfy | LegacyNumDiff | numdiff.py: `CFile`, `RrList`, `DiffContext`, `NumDiff` |

The number parsers `float()` and `int()` are a parameter
`parse: string -> Option<real>`, where `None` stands for the `ValueError`.
These options are also function parameters rather than compiled regular
expressions:

- the `ignore` pattern;
- a custom `splitre`;
- the `exclude` pattern;
- `ignore_matching_lines`;
- `iscomment`.

Numbers are exact reals.

Some facts about the code that a reader might not expect:

- The pairs `lstcomp` returns are not always in ascending order. For `[3]`
  and `[1, 2]` it returns `[(None,1), (3,None), (None,2)]`
  (`ListComparisonExamples.NotSortedMerge`).
- `lstcomp` with repeated entries can raise `StopIteration`. For `[2, 2]`
  and `[2, 3]` it does (`ListComparisonExamples.RepeatedEntryRaises`).
  The classification properties of `lstcomp` are therefore proved for lists
  without repeated entries.
- `CmpLine` reads two separate option keys:
  - `ignore_space_change` strips the whole line when the object is built;
  - `ignore_space` strips each token.
  `Main.__call__` only ever sets `ignore_space`.
- The `RrList` docstring (numdiff.py:63) says the list "holds at most
  maxlen entries". `append` with `maxlen == 1` keeps every item, because
  `data[-0:]` is the whole list (`LegacyNumDiff.AppendWithOneSlot`). The
  bound holds from `maxlen == 2` on, and `RrList.Valid` states it in
  that form.
- The last chunk that `prepres` produces always ends at the original `bj`.
  A chunk's b-range is therefore not claimed to be well formed.

## Model

| member | source | states |
|---|---|---|
| DiffLists.Prepres | lib/numdiff/difflist.py:59-76 | the `while` loop cutting a `replace` span returns exactly the chunk list `Chunked` |
| DiffLists.Halts | lib/numdiff/difflist.py:68-74 | the `while` loop of `prepres` ends: no `maxchunk`, another kind, `maxchunk >= 1`, or a span `aj - ai` of at most `maxchunk`, so the loop is never entered |
| DiffLists.Chunks | lib/numdiff/difflist.py:70-76 | the loop's chunk list: a chunk `maxchunk` wide on both axes while more than `maxchunk` of a is left, then the rest of a with the end `bj` |
| DiffLists.Chunked | lib/numdiff/difflist.py:59-76 | the value `prepres` returns: the opcode itself when `maxchunk` is `None` or the kind is not `replace`, otherwise the chunk list `Chunks` |
| DiffLists.ChunkedUncut | lib/numdiff/difflist.py:65-69 | when `maxchunk` is `None` or the kind is not `replace`, `prepres` returns exactly the one input opcode |
| DiffLists.ChunksShape | lib/numdiff/difflist.py:70-76 | the chunks start at `(ai, bi)`, are contiguous on both axes, and end at `(aj, bj)`; every a-width is at most `maxchunk`, and all but the last are exactly `maxchunk` wide on both axes; b-starts advance with a-starts |
| DiffLists.ChunksCount | lib/numdiff/difflist.py:72-76 | for `aj > ai` there are exactly ⌈(aj−ai)/maxchunk⌉ chunks, otherwise one |
| DiffLists.ChunkedExamples | lib/numdiff/difflist.py:61-66 | `prepres('replace',0,5,2,7,2)` is the three documented chunks; kind `'A'` is left whole |
| DiffLists.ChunkedKindAndWidth | lib/numdiff/difflist.py:68-76 | every chunk keeps the input's kind, and `replace` chunks are at most `maxchunk` wide |
| DiffLists.ChunkedSpans | lib/numdiff/difflist.py:70-76 | the chunks cover exactly the input's a-range and end at its `bj` |
| DiffLists.Meets | lib/numdiff/difflist.py:44 | an opcode continues another when it starts on both axes where the other ends |
| DiffLists.Joined | lib/numdiff/difflist.py:45-46 | the merged span `(kind, last.ai, val.aj, last.bi, val.bj)` |
| DiffLists.AppendHalts | lib/numdiff/difflist.py:43-56 | the `prepres` call of `append` ends: for the merged span when a same-kind opcode continues the last entry, for `val` when the kinds differ or the list is empty; a non-contiguous same-kind append raises before any loop |
| DiffLists.Appended | lib/numdiff/difflist.py:43-56 | the list `append` leaves: a contiguous same-kind opcode merges with the last entry and is re-chunked, a non-contiguous one is the `ValueError`, any other opcode is added as `prepres(val)` |
| DiffLists.AppendFails | lib/numdiff/difflist.py:43-50 | `append` raises exactly when the last entry has the same kind and does not end where the new opcode starts, with the two opcodes in the error |
| DiffLists.AppendKeepsPrefix | lib/numdiff/difflist.py:43-56 | all entries but the last are untouched; a different kind (or an empty list) is appended as `prepres(val)` |
| DiffLists.AppendMerges | lib/numdiff/difflist.py:43-47 | a contiguous same-kind opcode replaces the last entry by chunks spanning from the last entry's start to the new end |
| DiffLists.Chained | lib/numdiff/difflist.py:43-56 | every entry meets the next on both axes |
| DiffLists.KindsAlternate | lib/numdiff/difflist.py:43-56 | an entry whose kind is not `replace` is followed by an entry of another kind |
| DiffLists.ReplaceBounded | lib/numdiff/difflist.py:68-76 | with `maxchunk` set, no `replace` entry spans more than `maxchunk` on a |
| DiffLists.AppendPreservesInvariants | lib/numdiff/difflist.py:43-56 | appending keeps "adjacent entries differ in kind unless both are `replace`" and "`replace` entries are at most `maxchunk` wide" |
| DiffLists.AppendKeepsChained | lib/numdiff/difflist.py:43-56 | appending an opcode that starts where the list ends never raises and keeps the list contiguous |
| DiffLists.ExtendHalts | lib/numdiff/difflist.py:78-88 | each `append` that `extend` performs, up to and including the first that raises, ends |
| DiffLists.Extended | lib/numdiff/difflist.py:78-88 | `extend` appends each opcode in order and stops at the first `ValueError`, keeping the appends before it |
| DiffLists.ExtendHaltsSplit | lib/numdiff/difflist.py:78-88 | if extending by `xs + ys` terminates, so does extending by `xs` and then by `ys` |
| DiffLists.ExtendedConcat | lib/numdiff/difflist.py:78-88 | extending by `xs + ys` is extending by `xs` then by `ys`, and stops at the first error |
| DiffLists.ExtendedFailure | lib/numdiff/difflist.py:78-88 | a failed `extend` failed at some element, after the elements before it were appended |
| DiffLists.Position | lib/numdiff/difflist.py:99-116 | Python's reading of an index into a list of length `n`: `i` for `0 ≤ i < n`, `n + i` for `-n ≤ i < 0`, and none otherwise |
| DiffLists.Item | lib/numdiff/difflist.py:99-106 | `vals[i]` succeeds exactly for `-len ≤ i < len` and gives `vals[i]`, or `vals[len+i]` for negative `i`; otherwise the `IndexError` for `i` |
| DiffLists.Replaced | lib/numdiff/difflist.py:108-116 | `vals[i] = x`: the list with the entry at `Position(i)` replaced by `x`, or the `IndexError` for `i` |
| DiffLists.ReplacedThenItem | lib/numdiff/difflist.py:108-116 | after `vals[i] = x` the length is unchanged, index `i` holds `x`, and every other position is unchanged |
| DiffLists.DiffList.constructor | lib/numdiff/difflist.py:23-25 | an empty list with the given `maxchunk`, 20 by default |
| DiffLists.DiffList.Append | lib/numdiff/difflist.py:27-56 | the new list is `Appended`; on the error path `vals` is unchanged and the `ValueError` is returned |
| DiffLists.DiffList.Extend | lib/numdiff/difflist.py:78-88 | the new list and the outcome are those of appending each element in order |
| DiffLists.DiffList.Get | lib/numdiff/difflist.py:99-106 | `self[i]` is the entry at `i`, counted from the end for negative `i`, or the `IndexError` outside `-len ≤ i < len` |
| DiffLists.DiffList.Length | lib/numdiff/difflist.py:118-123 | `len(self)` is the number of entries in `vals` |
| DiffLists.DiffList.Set | lib/numdiff/difflist.py:108-116 | the new list is `Replaced`; an index out of range gives `IndexError` and changes nothing |
| DiffLists.AppendDocExample | lib/numdiff/difflist.py:29-34 | with `maxchunk=5`, appending `replace` 0-3, 3-5, 5-9 gives `[(0,5,0,5), (5,9,5,9)]` |
| DiffLists.AppendDocExampleAlternating | lib/numdiff/difflist.py:35-40 | alternating kinds are kept as three entries |
| DiffLists.ExtendDocExample | lib/numdiff/difflist.py:80-83 | extending by `equal` 0-3, 3-5 gives one entry `equal` 0-5 |
| DiffLists.IndexDocExample | lib/numdiff/difflist.py:101-114 | `a[0]` and `a[2] = ('A',4,5,4,5)` on the chunked `replace` 0-5 give the documented results |
| DiffLists.AppendMismatchExample | lib/numdiff/difflist.py:48-50 | appending `equal` 6-8 after `equal` 0-5 raises with both opcodes |
| ListComparison.Insert | lib/numdiff/__init__.py:175-176 | insertion into a sorted list gives a sorted list with the item added (as multisets) |
| ListComparison.Sort | lib/numdiff/__init__.py:175-176 | `sorted(lst)` is sorted and a permutation of `lst` |
| ListComparison.SortDistinct | lib/numdiff/__init__.py:175-176 | sorting keeps a list free of repeated entries |
| ListComparison.SortOfSorted | lib/numdiff/__init__.py:175-176 | sorting a sorted list returns it |
| ListComparison.SortStrict | lib/numdiff/__init__.py:175-176 | a list without repeated entries sorts into a strictly increasing list with the same elements |
| ListComparison.Round | lib/numdiff/__init__.py:179-200 | one pass of the `for` body: the pairs it emits and how far each sorted list has been drawn, or the escaping `StopIteration`; the positions only move forward |
| ListComparison.MergeFrom | lib/numdiff/__init__.py:177-202 | the rest of the walk from given positions: rounds until the first list is used up, then the right-only pairs of what is left of the second |
| ListComparison.Aligned | lib/numdiff/__init__.py:175-202 | the value `lstcomp` returns: the walk over `sorted(lst1)` and `sorted(lst2)` from their starts |
| ListComparison.FirstIn | lib/numdiff/__init__.py:186-193 | where an inner `while` loop stops: the first later entry found in the other list, or none |
| ListComparison.RoundExhausted | lib/numdiff/__init__.py:179-184 | once the second iterator is exhausted, `el2` is `None` and `(el1, None)` is emitted |
| ListComparison.RoundEqual | lib/numdiff/__init__.py:183-184 | equal heads are emitted as one pair, and both iterators advance |
| ListComparison.RoundDrainRight | lib/numdiff/__init__.py:185-189 | if `el1` is in `lst2`, right-only pairs are emitted up to the first `el2` in `lst1`, then `(el1, el2)`; with none left, `StopIteration` |
| ListComparison.RoundDrainLeft | lib/numdiff/__init__.py:190-194 | the mirror case for `el2` in `lst1` |
| ListComparison.RoundNeither | lib/numdiff/__init__.py:195-200 | if neither head is in the other list, both are emitted one-sided, the smaller first, and both iterators advance |
| ListComparison.MergeUnfold | lib/numdiff/__init__.py:178-202 | the walk is one round followed by the walk from where the round stopped, and a round that raises ends it |
| ListComparison.MergeStep | lib/numdiff/__init__.py:178-202 | a round's pairs followed by the rest of the walk are the whole walk |
| ListComparison.AlignedOfSorted | lib/numdiff/__init__.py:175-176 | on sorted inputs, `lstcomp` walks the lists themselves |
| ListComparison.SkipRight | lib/numdiff/__init__.py:186-188 | the inner loop stops where `FirstIn` says, having emitted exactly the right-only pairs before it |
| ListComparison.SkipLeft | lib/numdiff/__init__.py:191-193 | the mirror loop over the first list |
| ListComparison.OneRound | lib/numdiff/__init__.py:179-200 | one pass of the `for` body computes `Round` |
| ListComparison.Walk | lib/numdiff/__init__.py:177-203 | the `for` loop and the trailing loop over the second iterator compute `MergeFrom` |
| ListComparison.LstComp | lib/numdiff/__init__.py:154-203 | `lstcomp` returns `Aligned(lst1, lst2)`, or the escaping `StopIteration` |
| ListComparison.LeftsAppend | lib/numdiff/__init__.py:177-202 | the left components of concatenated pairs concatenate |
| ListComparison.RightsAppend | lib/numdiff/__init__.py:177-202 | the right components of concatenated pairs concatenate |
| ListComparison.MergeProjects | lib/numdiff/__init__.py:177-202 | a walk that returns has as left components the rest of the first list, and as right components the rest of the second |
| ListComparison.MergeSided | lib/numdiff/__init__.py:177-202 | every pair of a walk has at least one side |
| ListComparison.LstCompShape | lib/numdiff/__init__.py:175-202 | the left components in order are `sorted(lst1)`, the right ones `sorted(lst2)`, and no pair is `(None, None)` |
| ListComparison.LstCompClassifies | lib/numdiff/__init__.py:178-202 | without repeated entries `lstcomp` never raises, and every pair is `(x, x)` with `x` in both, `(x, None)` with `x` only in `lst1`, or `(None, y)` with `y` only in `lst2` |
| ListComparison.LstCompComplete | lib/numdiff/__init__.py:183-202 | without repeated entries, each kind of pair occurs for `x` exactly when `x` is in both lists, only the first, or only the second |
| ListComparisonExamples.DocMatchesAndGaps | lib/numdiff/__init__.py:158-159 | `lstcomp([1,2,3,5,6], [1,3,4,5])` is the documented list |
| ListComparisonExamples.DocMatchesAndGapsSwapped | lib/numdiff/__init__.py:160-161 | `lstcomp([1,3,4,5], [1,2,3,5,6])` is the documented list |
| ListComparisonExamples.DocOneLeft | lib/numdiff/__init__.py:162-163 | `lstcomp([1], [2,3,4,5,6])` is the documented list |
| ListComparisonExamples.DocOneRight | lib/numdiff/__init__.py:164-165 | `lstcomp([2,3,4,5,6], [1])` is the documented list |
| ListComparisonExamples.DocInterleavedRightFirst | lib/numdiff/__init__.py:166-167 | `lstcomp([2,4,6], [1,3,5])` is the documented list |
| ListComparisonExamples.DocInterleavedLeftFirst | lib/numdiff/__init__.py:168-169 | `lstcomp([1,3,5], [2,4,6])` is the documented list |
| ListComparisonExamples.DocRightEmpty | lib/numdiff/__init__.py:170-171 | `lstcomp([1,3,5], [])` is all left-only pairs |
| ListComparisonExamples.DocLeftEmpty | lib/numdiff/__init__.py:172-173 | `lstcomp([], [1,2,3])` is all right-only pairs |
| ListComparisonExamples.NotSortedMerge | lib/numdiff/__init__.py:195-200 | `lstcomp([3], [1,2])` puts `(None, 2)` after `(3, None)` |
| ListComparisonExamples.RepeatedEntryRaises | lib/numdiff/__init__.py:185-188 | `lstcomp([2,2], [2,3])` raises `StopIteration` |
| Trees.PathJoin | lib/numdiff/__init__.py:149 | `os.path.join(a, b)`: `b` if it is absolute, `a + b` if `a` is empty or ends with `/`, otherwise `a + "/" + b` |
| Trees.Relative | lib/numdiff/__init__.py:144-148 | `base[i:]` with `i` the length of `iDir`, plus one when `iDir` has no trailing `/`, and empty past the end |
| Trees.Decide | lib/numdiff/__init__.py:268-274 | a mismatch when the kinds differ and are not both regular files, a line comparison when the first is not a directory, otherwise a descent |
| Trees.NameStart | lib/numdiff/__init__.py:141 | the last path component starts just after the last `/`, or at 0 |
| Trees.Basename | lib/numdiff/__init__.py:141 | `os.path.split(p)[-1]` is the longest suffix of `p` without a `/` |
| Trees.SplitUndoesJoin | lib/numdiff/__init__.py:141-149 | the basename of `os.path.join(a, b)` is `b` for a plain name `b` |
| Trees.RelativeUndoesJoin | lib/numdiff/__init__.py:144-148 | `base[i:]` recovers `rest` from `os.path.join(iDir, rest)`, with or without a trailing separator on `iDir` |
| Trees.ShortTree | lib/numdiff/__init__.py:141-151 | `[]` when the basename of `base` is excluded; otherwise the entries of `dirs + fnames` not excluded, in order, each joined onto `base` relative to `iDir` |
| Trees.ShortTreeAtRoot | lib/numdiff/__init__.py:144-151 | at the root of the walk, the result is the kept entries themselves |
| Trees.ShortTreeNames | lib/numdiff/__init__.py:144-151 | below the root, each path is the directory `rest` joined with a kept name, and its basename is that name |
| Trees.ShortTreeBelow | lib/numdiff/__init__.py:144-151 | below the root, the kept names are joined onto the sub-directory the walk is in |
| Trees.JoinEachPlain | lib/numdiff/__init__.py:149 | joining onto a directory without a trailing `/` inserts one |
| Trees.RegularFilesCompared | lib/numdiff/__init__.py:268-274 | two entries are compared line by line exactly when both are regular or empty files |
| Trees.MismatchExactly | lib/numdiff/__init__.py:268-272 | a mismatch occurs exactly when one side is a directory and the other is not |
| Trees.DirectoriesDescend | lib/numdiff/__init__.py:273 | two directories, and only they, are not compared line by line |
| Trees.DecideSymmetric | lib/numdiff/__init__.py:268-274 | the decision does not depend on which side an entry comes from |
| TreesExamples.DocRootKept | lib/numdiff/__init__.py:124-126 | the root step gives `['1', '.svn', '2', '3', '4']` |
| TreesExamples.DocSubdirKept | lib/numdiff/__init__.py:127-128 | the sub-directory step gives `['1/.svn']` |
| TreesExamples.DocSvnKept | lib/numdiff/__init__.py:129-131 | the `.svn` step gives the six documented paths |
| TreesExamples.DocRootFiltered | lib/numdiff/__init__.py:132-134 | with `.svn` excluded, the root step gives `['1', '2', '3', '4']` |
| TreesExamples.DocSubdirFiltered | lib/numdiff/__init__.py:135-136 | with `.svn` excluded, the sub-directory step gives `[]` |
| TreesExamples.DocSvnFiltered | lib/numdiff/__init__.py:137-139 | with `.svn` excluded, the `.svn` directory itself gives `[]` |
| CommentFilter.CommentPrefix | lib/numdiff/__init__.py:208 | `optdict.get('cchars', '#')`: `#` when the entry is absent, the entry's value (possibly `None`) otherwise |
| CommentFilter.IsComment | lib/numdiff/__init__.py:205-210 | a line is a comment when the comment prefix is set, not empty and starts the line, or when the ignore-matching matcher hits it |
| CommentFilter.Normalized | lib/numdiff/__init__.py:57 | the stripped line split at white-space runs and joined by single blanks |
| CommentFilter.Shown | lib/numdiff/__init__.py:56-59 | a kept line as yielded: collapsed by `Normalized` under `ignore_space`, verbatim otherwise |
| CommentFilter.Yielded | lib/numdiff/__init__.py:51-59 | the lines `CFile` yields: each line that is not a comment, collapsed under `ignore_space`, in order, never more than there are lines |
| CommentFilter.CommentDefault | lib/numdiff/__init__.py:205-210 | without a `cchars` entry and matcher, a line is a comment exactly when it starts with `#` |
| CommentFilter.NoPrefixOnlyMatcher | lib/numdiff/__init__.py:208-210 | with `cchars` `None` or empty, only the ignore-matching matcher decides |
| CommentFilter.MatcherDecides | lib/numdiff/__init__.py:208-210 | a line the matcher hits is a comment |
| CommentFilter.GivenPrefix | lib/numdiff/__init__.py:208-209 | with a non-empty prefix and no matcher, a line is a comment exactly when it starts with the prefix |
| CommentFilter.NormalizedIsSplitJoin | lib/numdiff/__init__.py:57 | `" ".join(ws.split(i.strip()))` equals `" ".join(i.split())` |
| CommentFilter.NormalizedFields | lib/numdiff/__init__.py:57 | collapsing white space keeps the line's fields |
| CommentFilter.NormalizedKeepsText | lib/numdiff/__init__.py:57 | collapsing white space changes no visible character |
| CommentFilter.NormalizedIdempotent | lib/numdiff/__init__.py:57 | collapsing twice is collapsing once |
| CommentFilter.YieldedShowsKept | lib/numdiff/__init__.py:51-59 | the k-th yielded line shows the k-th line that is not a comment |
| CommentFilter.YieldedVerbatim | lib/numdiff/__init__.py:54-59 | without `ignore_space`, a line is yielded exactly when it is in the file and not a comment |
| CommentFilter.YieldedAppend | lib/numdiff/__init__.py:51-59 | reading a file in two parts yields what reading it whole does |
| CommentFilter.OnlyComments | lib/numdiff/__init__.py:54-55 | a file of comments yields nothing |
| CommentFilter.CFile.constructor | lib/numdiff/__init__.py:45-49 | the reader starts at line 0 on the whole file |
| CommentFilter.CFile.Iterate | lib/numdiff/__init__.py:51-59 | iterating yields `Yielded(lines)`, and the counter goes up by the number of lines read, comments included |
| LineComparison.BlankRun | lib/numdiff/cmpline.py:33 | the length of the greedy ` *` run at the start of a string: never longer than the string, at least one when it starts with a blank |
| LineComparison.SeparatorStart | lib/numdiff/cmpline.py:33 | where the leftmost match of `' *, *| +'` starts: the first blank or comma, or the string's length when there is none |
| LineComparison.DefaultSplit | lib/numdiff/cmpline.py:33 | `re.split(r' *, *| +')`: the text before the first separator match, then the split of what follows that match |
| LineComparison.SeparatorLength | lib/numdiff/cmpline.py:33 | a separator match at the start of a string takes at least one character |
| LineComparison.DefaultSplitPieces | lib/numdiff/cmpline.py:33 | the default split gives at least one piece, and no piece holds a blank or comma |
| LineComparison.DefaultSplitJoin | lib/numdiff/cmpline.py:33 | splitting tokens joined by `" "` or `", "` gives the tokens back |
| LineComparison.CmpLine.constructor | lib/numdiff/cmpline.py:35-50 | `value` is the stripped line under `ignore_space_change`; `ignore` and `splitre` replace their defaults when set; `aeps` and `reps` default to 1e-8 and 1e-5 |
| LineComparison.CmpLine.FEquals | lib/numdiff/cmpline.py:83-86 | `allclose(a, b, reps, aeps)`: `|a−b| ≤ aeps + reps·|b|` |
| LineComparison.CmpLine.SplitLine | lib/numdiff/cmpline.py:88-91 | a line is split by the object's `linesplit` |
| LineComparison.CmpLine.Ignored | lib/numdiff/cmpline.py:53-56 | the `ignore` pattern is set and found in both values |
| LineComparison.CmpLine.Prepared | lib/numdiff/cmpline.py:65-67 | a token as compared: stripped when `ignore_space` is set, unchanged otherwise |
| LineComparison.CmpLine.TokenAgrees | lib/numdiff/cmpline.py:65-80 | one pass of the token loop `continue`s: the prepared tokens are equal, or one matches `_FLOAT` and both parse to numbers `fequals` accepts; otherwise the dead `_INT` branch |
| LineComparison.CmpLine.AllAgree | lib/numdiff/cmpline.py:64-81 | the token loop reaches its end: every pair, in order, agrees |
| LineComparison.CmpLine.Verdict | lib/numdiff/cmpline.py:52-81 | `__cmp__` only ever returns 0 or 1 |
| LineComparison.CmpLine.Compare | lib/numdiff/cmpline.py:52-81 | the loop with early returns over the token pairs computes the verdict |
| LineComparison.IntAlone | lib/numdiff/cmpline.py:70-78 | a token that `_FLOAT` does not match is not matched by `_INT` either, so the `int` branch is dead |
| LineComparison.IntBranch | lib/numdiff/cmpline.py:76-78 | the `_INT` branch, reached only when neither token matches `_FLOAT`, never `continue`s |
| LineComparison.AllAgreeIff | lib/numdiff/cmpline.py:64-81 | the loop over token pairs passes exactly when every pair is tolerated |
| LineComparison.IgnoredEqual | lib/numdiff/cmpline.py:53-56 | values that both match the ignore pattern compare as 0 |
| LineComparison.EqualValuesEqual | lib/numdiff/cmpline.py:57-58 | equal values compare as 0 |
| LineComparison.TokenCountDiffers | lib/numdiff/cmpline.py:60-63 | lines neither ignored nor equal that split into different numbers of tokens compare as 1 |
| LineComparison.EqualIff | lib/numdiff/cmpline.py:52-81 | the result is 0 exactly when the lines are ignored, equal, or split into as many tokens with each pair tolerated |
| LineComparison.TextTokensDiffer | lib/numdiff/cmpline.py:68-80 | different tokens that do not look like numbers are not tolerated |
| LineComparison.UnparsableDiffers | lib/numdiff/cmpline.py:70-75 | different tokens one of which does not parse as a float are not tolerated, and nothing escapes |
| LineComparison.NumericTokens | lib/numdiff/cmpline.py:70-73 | different number-like tokens that parse are tolerated exactly when `fequals` holds |
| LineComparison.IgnoreSpaceTokens | lib/numdiff/cmpline.py:65-67 | under `ignore_space`, tokens equal after stripping are tolerated |
| LineComparison.FEqualsAsymmetric | lib/numdiff/cmpline.py:83-86 | with the default tolerances `fequals(1.0, 1.0000100101)` holds but `fequals(1.0000100101, 1.0)` does not |
| LineComparison.EqualExample | lib/numdiff/testing/test_cmpline.py:20-24 | `"AA 1.00000000001"` compares equal to `"AA 1"` |
| LineComparison.DifferExample | lib/numdiff/testing/test_cmpline.py:20-23 | `"AA 1.00000000001"` differs from `"BB"` |
| LineComparison.TestCompare001 | lib/numdiff/testing/test_cmpline.py:19-24 | the test's three objects compare as asserted |
| Lexical.FloatPrefix | numdiff.py:36 | `_float.match(u)`: an optional sign, then a digit, or a `.` followed by a digit |
| Lexical.IntPrefix | numdiff.py:37 | `_int.match(u)`: an optional sign, then a non-empty digit run not followed by `.`, `e` or `E`, one the regex engine may reach by backtracking |
| Lexical.FloatMatch | lib/numdiff/cmpline.py:22 | `_FLOAT.match(s)`: leading white space, then `_float` |
| Lexical.IntMatch | lib/numdiff/cmpline.py:23 | `_INT.match(s)`: leading white space, then `_int` |
| Lexical.IntMatchIsFloatMatch | lib/numdiff/cmpline.py:22-23 | every string `_INT` matches at its start is matched by `_FLOAT` |
| Lexical.IntPrefixIsFloatPrefix | numdiff.py:36-37 | the same for the patterns without surrounding white space |
| Lexical.IntPrefixBacktracks | numdiff.py:37 | `_INT` matches `"12.5"` by backtracking to `"1"`, but not `"1.5"` |
| LegacyNumDiff.SliceFrom | numdiff.py:70-76 | Python's `s[start:]`: the last `-start` items for negative `start`, the items from `start` on otherwise |
| LegacyNumDiff.BufferAppend | numdiff.py:72-77 | the appended item is last |
| LegacyNumDiff.AppendKeepsLast | numdiff.py:72-77 | for `maxlen >= 2`, `append` keeps the last `maxlen - 1` items and adds the new one, so at most `maxlen` remain |
| LegacyNumDiff.AppendWithOneSlot | numdiff.py:76 | for `maxlen == 1`, `append` keeps everything |
| LegacyNumDiff.InitialKeepsLast | numdiff.py:65-70 | the initial data is cut to its last `maxlen` items |
| LegacyNumDiff.RrList.constructor | numdiff.py:65-70 | the buffer starts empty, or as the last `maxlen` items of `data`, and within the bound |
| LegacyNumDiff.RrList.Append | numdiff.py:72-77 | the new buffer is `BufferAppend` of the old one, and the bound is kept |
| LegacyNumDiff.RrList.Valid | numdiff.py:62-63 | the docstring's bound: at most `maxlen` entries, for `maxlen >= 2` |
| LegacyNumDiff.RrList.List | numdiff.py:62-82 | `list()` returns the current contents, never more than `maxlen` of them once `maxlen >= 2` |
| LegacyNumDiff.RrList.Clear | numdiff.py:84-86 | `clear()` empties the buffer |
| LegacyNumDiff.TestRrList1 | test/test.py:59-64 | `RrList(2)` after appending 1 and 2 holds `[1, 2]` |
| LegacyNumDiff.TestRrList2 | test/test.py:66-69 | `RrList(2, [1..5])` holds `[4, 5]` |
| LegacyNumDiff.TestRrList3 | test/test.py:71-75 | `RrList(5, [1..5])` after appending 6 holds `[2..6]` |
| LegacyNumDiff.Step | numdiff.py:98-111 | one `append`: a difference writes the report, empties the buffer and sets `trailing` to 1; with a trailing count the line is written and the count goes up or ends at `lines`; otherwise the line goes into the buffer |
| LegacyNumDiff.Header | numdiff.py:117 | the header `--- line N ---` with `N` written by `%d` |
| LegacyNumDiff.Written | numdiff.py:113-121 | `report` writes the header `--- line N ---` with `N = line - len(buffer)` and the buffer exactly when the buffer is non-empty or `line == 1`, then always `< item1` and `> item2` |
| LegacyNumDiff.DifferenceRestarts | numdiff.py:101-121 | after a difference `trailing == 1`, the buffer is empty, and the report is appended to the log |
| LegacyNumDiff.EqualLineBuffered | numdiff.py:110-111 | with no trailing count, an equal line goes into the buffer and nothing is written |
| LegacyNumDiff.StepBounded | numdiff.py:98-111 | for `lines >= 2` a step keeps the buffer within `lines` items |
| LegacyNumDiff.Steps | numdiff.py:98-111 | the context after a run of `append` calls, one `Step` each, in order |
| LegacyNumDiff.Echo | numdiff.py:104 | the lines `  text` that equal lines after a difference write, one per call |
| LegacyNumDiff.StepsOnlyWrite | numdiff.py:98-121 | the log only grows |
| LegacyNumDiff.StepsBounded | numdiff.py:98-111 | for `lines >= 2` any run of steps keeps the buffer within `lines` items |
| LegacyNumDiff.TrailingCountsUp | numdiff.py:104-107 | after a difference, each equal line is written and counts `trailing` up |
| LegacyNumDiff.TrailingEnds | numdiff.py:104-109 | at `trailing == lines`, the line is still written and `trailing` goes back to `None` |
| LegacyNumDiff.DiffContext.constructor | numdiff.py:91-96 | an empty log, an empty buffer of size `lines` (5 by default), no trailing count |
| LegacyNumDiff.DiffContext.Append | numdiff.py:98-111 | the new state is one `Step` of the old one, and the buffer keeps its bound |
| LegacyNumDiff.DiffContext.Report | numdiff.py:113-121 | the log gains `Written(...)` of the old buffer, the buffer is cleared, and `trailing` is kept |
| LegacyNumDiff.Numbered | numdiff.py:55-60 | the older reader yields at most one item per line |
| LegacyNumDiff.NumberedPositions | numdiff.py:55-60 | each yielded item is a line that is not a comment, paired with its 1-based line number, in increasing order |
| LegacyNumDiff.Bang | test/test.py:37-41 | the test's `iscomment`: the line starts with `!` |
| LegacyNumDiff.TestCfile1 | test/test.py:37-54 | with `Bang` as the comment test, the test file yields `test` as line 1 and `got it?` as line 3 |
| LegacyNumDiff.NumDiff.constructor | numdiff.py:126-134 | `aeps`, `reps` and the context size default to 1e-8, 1e-5 and 5, and the context starts empty |
| LegacyNumDiff.NumDiff.IsComment | numdiff.py:136-140 | a line is a comment when the `cchars` prefix (default `#`) is not empty and starts it |
| LegacyNumDiff.NumDiff.SplitLine | numdiff.py:180-184 | `line.split()` |
| LegacyNumDiff.NumDiff.FEquals | numdiff.py:186-189 | `allclose(a, b, reps, aeps)`: `|a−b| ≤ aeps + reps·|b|` |
| LegacyNumDiff.NumDiff.TokenAgrees | numdiff.py:159-173 | one pass of the token loop `continue`s: equal tokens, or one matches `_float` and both parse to numbers `fequals` accepts; otherwise the dead `_int` branch |
| LegacyNumDiff.NumDiff.AllAgree | numdiff.py:158-175 | the token loop ends without `break`: every pair, in order, agrees |
| LegacyNumDiff.NumDiff.Differs | numdiff.py:149-175 | `compare` reports a pair: the texts differ and either the token counts differ or some token pair does not agree |
| LegacyNumDiff.NumDiff.Event | numdiff.py:149-175 | the call on the context for one pair: `append(line1)`, with `line2`'s text as second argument exactly when the pair `Differs` |
| LegacyNumDiff.NumDiff.Events | numdiff.py:148-175 | the context calls for the first `k` pairs of `izip`, in order, one per pair |
| LegacyNumDiff.NumDiff.FoundError | numdiff.py:148-177 | some pair up to the end of the shorter input `Differs` |
| LegacyNumDiff.NumDiff.FoundBefore | numdiff.py:147-173 | the flag `foundError` after `k` passes: set by the first differing pair and never reset |
| LegacyNumDiff.NumDiff.TokensAgree | numdiff.py:158-173 | the token loop with `break` passes exactly when every pair is tolerated |
| LegacyNumDiff.NumDiff.ComparePair | numdiff.py:149-175 | one pair of lines is judged different exactly as `Differs` says, and the context takes exactly one step |
| LegacyNumDiff.NumDiff.CompareItems | numdiff.py:148-175 | the `izip` loop finds an error exactly when one of the first `min(len)` pairs differs, and runs the context through all of them |
| LegacyNumDiff.NumDiff.Compare | numdiff.py:142-177 | `compare` raises `NumDiffError(1)` exactly when some pair of non-comment lines, up to the shorter file, differs; the context ends in the state those pairs lead to |
| LegacyNumDiff.FoundBeforeIff | numdiff.py:148-175 | the flag `foundError` after `k` pairs is set exactly when one of them differs |
| LegacyNumDiff.ExtraLinesIgnored | numdiff.py:148 | lines beyond the shorter input never change the verdict |
| LegacyNumDiff.TokenCountDiffers | numdiff.py:152-157 | different lines with different token counts differ |
| LegacyNumDiff.AllAgreeReflexive | numdiff.py:158-160 | a token list agrees with itself |
| LegacyNumDiff.SpacingIgnored | numdiff.py:152-160 | lines with the same fields under `split()` never differ |
| LegacyNumDiff.SelfComparison | numdiff.py:142-177 | a file compared with itself raises no error |
| LegacyNumDiff.SameTextsNoError | numdiff.py:148-175 | inputs whose line texts agree pair by pair raise no error, whatever their line numbers |
| LegacyNumDiff.TestNumDiff1Lines | test/test.py:80-92 | under the default options the test's `#` line is a comment, so the files yield "test" and "got it?" as lines 1, 3 and 1, 2 |
| LegacyNumDiff.TestNumDiff1 | test/test.py:80-92 | a `NumDiff` with no options finds no difference between the two files of the test |
| LegacyNumDiff.IntAlone | numdiff.py:161-169 | a token `_float` does not match is not matched by `_int`, so the `int` branch is dead |
| LegacyNumDiff.IntBranch | numdiff.py:167-169 | the `_int` branch, reached only when neither token matches `_float`, never `continue`s |

## Left out

- Input and output are not modelled:
  - `Main.docheck`, `Main.dirtreecomp` and the directory walk of `Main.deepcheck` (`os.walk`, `os.path.isdir`, `fileFactory`, printing);
  - `Main.__call__`, `Main.parse_cmdline`, `Main.onlyIn` and `main()` in numdiff.py.
  The model takes the lines of a file as a sequence of strings. The walk's triples and the entry kinds are inputs.
- `difflib.context_diff` and `SequenceMatcher` are a foreign library. `DiffList` takes the opcodes as input.
- CmpLine `__str__`, `__hash__`, `__radd__`, `__getitem__` and `__len__`, and `DiffList.__str__`, exist only to feed or print difflib output.
- lib/numdiff/files.py: only the kind tag is modelled, as `Trees.FileKind`. The classes only format names, and the real kind comes from `os.stat`.
- Floating point: numbers are exact reals, so neither rounding nor NaN nor infinities are modelled. `float()` and `int()` are the parameter `parse`, and `allclose` is `|a−b| ≤ aeps + reps·|b|` on reals.
- The `int()` branches at lib/numdiff/cmpline.py:76-78 and numdiff.py:167-169 are proved unreachable (`LineComparison.IntAlone`, `LegacyNumDiff.IntAlone`), so the model has no integer parser.
- Regular expressions: these are functions the caller supplies, and the model does not compile patterns.
  - Modelled this way: `ignore`, `splitre`, `exclude` (`fnmatch.translate`) and `ignore_matching_lines`.
  - Written out in full: the default `linesplit` `' *, *| +'`, `\s+` and the `_FLOAT`/`_INT` prefixes.
- Generators:
  - `CFile.__iter__` runs to the end in one call. The lazy interleaving with the consumer is not modelled.
  - In the older numdiff.py the `line` counter is not state. Each item carries its number instead.
- `DiffList.append`: the branch for `vals[0] is None` (lib/numdiff/difflist.py:53-54) is not modelled. Entries are always opcodes in the model, and no operation can store `None`.
- DiffLists.DiffList.Append and DiffLists.DiffList.Extend: they require every re-chunking loop they run to end (`AppendHalts`, `ExtendHalts`). The loop at lib/numdiff/difflist.py:72-74 diverges exactly for a `replace` span with `maxchunk <= 0` and `aj - ai > maxchunk`, and the requires exclude exactly those inputs; `maxchunk = 0` with `ai == aj`, say, returns the single opcode.
- `lstcomp` keys are integers, as in its documented examples. Names would need the same algorithm over string order.
- `DiffContext.reportTo`: the stream is the log of strings written. The `cline` argument is stored but never used.
- `testNumDiff.test2` to `test6` in test/test.py read reference files under ref/ that are not part of this model, so they are not restated. `testNumDiff.test1` is (`LegacyNumDiff.TestNumDiff1`); the test itself only checks that `tester.compare` exists and never calls it. `Main.columns`, used by lib/numdiff/testing/test_numdiff.py:21-25, does not exist in lib/numdiff/__init__.py.
- setup.py and test/sitecustomize.py are packaging and are not part of this model.
