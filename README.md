# RAGERaps battle backend, modelled in Dafny

RAGERaps stages a best-of-three rap battle between two AI personas. Each
round asks a language model for one verse per rapper, then settles the round
by an AI judge or by the user, and the battle ends once someone is
ahead on wins or three rounds are judged. This project models the Python
backend's core and proves properties of the model:

- **the battle entities and their store**: `Battle`, `Round` and `Verse`
  records, and the in-memory repository that holds them in insertion order
  (`models.dfy`, `battle_repo.dfy`, `battle_crud.dfy`,
  `round_management.dfy`);
- **the round lifecycle**: generating a round's two verses with the
  fallback verse, judging a round, deciding the battle winner and moving on
  to the next round (`verse_generation.dfy`, `judgment.dfy`,
  `judge_agent.dfy`, `orchestration.dfy`). Every step keeps the battle
  *coherent*: rounds numbered 1, 2, 3 in order, unique round ids, the last
  round current, and a winner exactly when the battle is completed;
- **the rapper agent**: extracting the verse from the model's reply and the
  tool listing (`rapper_agent.dfy`);
- **prompt assembly**: a model of Python's `str.format` for keyword fields,
  lookups into the TOML prompt tables, and the rapper system message
  (`prompt_service.dfy`);
- **the enrichment cache**: records keyed by the normalised rapper name,
  merged field by field, with a lifetime (`data_cache.dfy`);
- **the tools**: artist retrieval, web search and style lookup rendering
  text from what the vector store, the search API or the style repository
  returned (`artist_retrieval.dfy`, `search_tool.dfy`, `style_tool.dfy`);
- **artist data and CSV ingestion**: the validated `ArtistData` record,
  lyric cleaning, and the two CSV processors, covering fallback encodings,
  row parsing, batching and counting (`artist.dfy`, `lyrics.dfy`,
  `csv_processing.dfy`);
- shared pieces: Python string operations (`strings.dfy`), string order and
  `sorted` of a set (`string_order.dfy`), and `Option`/`Result`
  (`wrappers.dfy`).

The model has no I/O. Language-model calls, vector-store and web searches,
the style repository, `chardet`, `float()` of text, the CSV loader and the
clock are all parameters: an oracle function or value whose result the
caller supplies. `random.choice` is a nondeterministic choice (`:|`).
Specification functions give the set of outcomes it may produce. The
repository is a `class` whose methods update its maps in place. The services
are module-level methods that take the repository, as the Python singletons
hold only a reference to it.

## Model

| member | source | states |
|---|---|---|
| Strings.LStrip | backend/app/models/artist.py:38 | `lstrip()`: the result is a suffix of the input, nothing but whitespace was removed, and it does not start with whitespace |
| Strings.RStrip | backend/app/models/artist.py:38 | `rstrip()`: the result is a prefix of the input, only whitespace was removed, and it does not end with whitespace |
| Strings.Strip | backend/app/models/artist.py:45-47 | `strip()`: no whitespace at either end and never longer than the input |
| Strings.StripEmptyIffAllSpace | backend/app/models/artist.py:45 | `not v.strip()` holds exactly when the text is empty or whitespace only |
| Strings.StripIdempotent | backend/app/models/artist.py:47 | stripping twice is stripping once |
| Strings.StripPadded | backend/app/models/artist.py:38 | whitespace added at either end does not change `strip()` |
| Strings.StripIsSlice | backend/app/models/artist.py:47 | `strip()` returns a contiguous slice of its argument |
| Strings.Lower | backend/app/services/data_cache_service.py:50 | `lower()` keeps the length and maps each character on its own (ASCII letters only) |
| Strings.LowerConcat | backend/app/services/data_cache_service.py:50 | lowercasing distributes over concatenation |
| Strings.LowerIdempotent | backend/app/services/data_cache_service.py:50 | lowercasing twice is lowercasing once |
| Strings.LowerAllSpace | backend/app/services/data_cache_service.py:50 | lowercasing leaves whitespace where it is |
| Strings.Upper | backend/app/tools/artist_retrieval_tool.py:182 | `upper()` keeps the length and maps each character on its own (ASCII letters only) |
| Strings.FindFirst | backend/app/services/csv_processor_service.py:304-305 | `find()`: the index of the leftmost occurrence, with no occurrence before it, or none at all |
| Strings.FindChar | backend/app/services/csv_processor_service.py:304-305 | for one character, `find` fails exactly when the character is absent, and otherwise points at its first occurrence |
| Strings.JoinSplit | backend/app/models/artist.py:76 | joining the pieces of a split with the separator gives back the string |
| Strings.SplitJoin | backend/app/models/artist.py:76 | splitting a join at a character none of the parts holds gives back the parts |
| Strings.SplitFirstPiece | backend/app/models/artist.py:76 | a string cut at its first separator splits into that piece followed by the split of the rest |
| Strings.NatToStringDigits | backend/app/tools/search_tool.py:72 | a rendered number holds no line break |
| Strings.TerminatedJoin | backend/app/tools/search_tool.py:66-76 | text built line by line, each line followed by "\n", is the lines joined by "\n" with an empty last piece |
| Strings.TerminatedLines | backend/app/tools/search_tool.py:66-76 | splitting such text at "\n" gives back its lines and a final empty piece, when no line holds a "\n" |
| Strings.Split | backend/app/services/csv_processor_service.py:303 | `split(sep)` with a non-empty separator gives at least one piece |
| Artist.ValidateText | backend/app/models/artist.py:42-54 | `validate_artist`/`validate_genres`: the error is raised exactly for empty or whitespace-only text, with that validator's message; otherwise the stripped, non-empty value |
| Artist.ValidateSongs | backend/app/models/artist.py:67-72 | accepted exactly when the count is positive, and then returned unchanged |
| Artist.ValidateLyricSpec | backend/app/models/artist.py:56-65 | `validate_lyric` accepts exactly the non-blank texts, returns them cleaned, and never raises "Lyric cannot be empty after cleaning" |
| Artist.CleanEmptyIffAllSpace | backend/app/models/artist.py:31-38 | cleaning gives "" exactly for whitespace-only text |
| Artist.NoWordsAllSpace | backend/app/models/artist.py:35-38 | text with no words is whitespace only |
| Artist.AllSpaceNoWords | backend/app/models/artist.py:35-38 | whitespace-only text has no words |
| Artist.NewArtistData | backend/app/models/artist.py:9-72 | constructing `ArtistData` succeeds exactly when artist, genres and lyric are non-blank and songs is positive; the value holds the stripped fields and the cleaned lyric; otherwise every failing field's error, in field order |
| Artist.BlankLyricReported | backend/app/models/artist.py:56-60 | a blank lyric always fails, and its error "Lyric cannot be empty" is reported last, under "lyric" |
| Artist.KeptParts | backend/app/models/artist.py:76 | every kept genre is non-empty and already stripped |
| Artist.ParsedGenres | backend/app/models/artist.py:74-76 | `get_parsed_genres`: every genre is non-empty and stripped |
| Artist.ParsedGenresCons | backend/app/models/artist.py:76 | the first `;`-piece comes first, stripped, or is dropped when blank |
| Artist.ParsedGenresHaveNoSeparator | backend/app/models/artist.py:76 | no parsed genre holds a `;` |
| Artist.ParsedGenresRoundTrip | backend/app/models/artist.py:76 | joining clean genre names with `;` and parsing them gives back the names |
| Artist.EmbeddingContentMetadata | backend/app/models/artist.py:78-86 | the embedded text opens with the artist and ends with the songs count, stating the same artist, parsed genres and whole count as the metadata |
| Artist.MetadataOfValidated | backend/app/models/artist.py:88-95 | the metadata of a validated row: stripped non-empty artist, genres parsed from the stripped text, `int(songs)` not negative and within one of songs, source "csv_import" |
| Artist.TruncSpec | backend/app/models/artist.py:93 | `int(x)` truncates toward zero: non-negative counts lose their fraction and never go below 0 |
| Lyrics.DropNewlines | backend/app/utils/common.py:28 | the suffix after a leading run of `\r`/`\n`: only newline characters were removed and the rest does not start with one |
| Lyrics.SubNewlines | backend/app/utils/common.py:28 | `re.sub(r"[\r\n]+", " ", s)` is empty exactly when `s` is, and starts with whitespace exactly when `s` does |
| Lyrics.Word | backend/app/utils/common.py:31 | the leading run of non-whitespace characters: a prefix, with no whitespace, ended by whitespace or the end |
| Lyrics.CleanLyricsText | backend/app/utils/common.py:24-25 | `None` cleans to "" and a non-string value to its `str()` |
| Lyrics.WordsAreWords | backend/app/utils/common.py:31 | every word of `split()` is non-empty and holds no whitespace |
| Lyrics.WordsSubNewlines | backend/app/utils/common.py:28 | replacing newline runs by a space keeps the words |
| Lyrics.CollapseIsJoinedWords | backend/app/utils/common.py:31-34 | collapsing whitespace runs and stripping gives the words joined by single spaces |
| Lyrics.CleanIsJoinedWords | backend/app/utils/common.py:14-36 | `clean_lyrics_text(s) == " ".join(s.split())` |
| Lyrics.JoinedWordsSpacing | backend/app/utils/common.py:31 | in words joined by spaces, every whitespace character is a single space between two non-space characters |
| Lyrics.CleanHasNoNewlines | backend/app/utils/common.py:27-28 | the cleaned text holds no `\r` and no `\n` |
| Lyrics.CleanHasNoDoubleSpace | backend/app/utils/common.py:30-31 | the cleaned text never has two whitespace characters in a row |
| Lyrics.CleanIsStripped | backend/app/utils/common.py:33-34 | the cleaned text neither starts nor ends with whitespace |
| Lyrics.CleanIdempotent | backend/app/utils/common.py:14-36 | cleaning a cleaned text changes nothing |
| Lyrics.WordsOfJoined | backend/app/utils/common.py:31 | splitting words joined by single spaces gives the words back |
| Models.NewRound | backend/app/models/round.py:26-73 | a new round carries the given id, battle and number, no verses, no winner, no feedback, no user verdict, and status "in_progress" |
| Models.NewBattle | backend/app/models/battle.py:56-83 | a new battle carries the request's names and styles, no rounds, status "in_progress", current round 1, no wins and no winner |
| Models.CompletedCount | backend/app/services/round_management_service.py:145 | the number of completed rounds never exceeds the number of rounds |
| Models.CompletedCountAppend | backend/app/services/round_management_service.py:145 | appending a round adds one to the count exactly when that round is completed |
| Models.CompletedCountSameStatus | backend/app/services/round_management_service.py:145 | the count depends only on each round's status |
| Models.CompletedCountComplete | backend/app/services/round_management_service.py:145 | completing one round raises the count by one unless it was already completed |
| Models.FindRound | backend/app/db/repositories/battle_repo.py:129-134 | the index of the first round with the id, no earlier round having it; none exactly when no round has it |
| Models.FindRoundAppendFresh | backend/app/db/repositories/battle_repo.py:129-134 | a round appended under an id no earlier round has is found at the end |
| Models.RoundIds | backend/app/models/round.py:26-28 | the set of a battle's round ids holds exactly the ids of its rounds |
| BattleRepo.InMemoryBattleRepository.constructor | backend/app/db/repositories/battle_repo.py:17-19 | the repository starts empty |
| BattleRepo.InMemoryBattleRepository.CreateBattle | backend/app/db/repositories/battle_repo.py:21-39 | the new battle has a fresh id and the request's fields with defaults elsewhere; it is stored under its id and appended to the insertion order; nothing else changes |
| BattleRepo.InMemoryBattleRepository.GetBattle | backend/app/db/repositories/battle_repo.py:41-51 | the stored battle for a known id, None for an unknown one |
| BattleRepo.InMemoryBattleRepository.ListBattles | backend/app/db/repositories/battle_repo.py:53-60 | every stored battle exactly once, in insertion order |
| BattleRepo.InMemoryBattleRepository.DistinctKeysCount | backend/app/db/repositories/battle_repo.py:60 | the insertion order lists as many ids as the dictionary has keys |
| BattleRepo.InMemoryBattleRepository.UpdateBattle | backend/app/db/repositories/battle_repo.py:62-79 | an unknown id is an error and changes nothing; otherwise exactly that entry is replaced |
| BattleRepo.InMemoryBattleRepository.AddRoundToBattle | backend/app/db/repositories/battle_repo.py:81-101 | an unknown battle is an error and changes nothing; otherwise the round is appended and its number becomes the current round |
| BattleRepo.InMemoryBattleRepository.AddVersesToRound | backend/app/db/repositories/battle_repo.py:103-138 | an unknown battle or round is an error and changes nothing; otherwise the first round with the id gets both verses and is returned |
| BattleRepo.DistinctSeqCard | backend/app/db/repositories/battle_repo.py:60 | a list without repetitions has as many entries as the set of its entries |
| BattleRepo.WithRound | backend/app/db/repositories/battle_repo.py:99-100 | the battle after `add_round_to_battle`: the round appended, its number current, every other field unchanged |
| BattleRepo.WithVerses | backend/app/db/repositories/battle_repo.py:129-138 | none exactly when no round has the id; otherwise only the first such round changes, and only in its two verse slots |
| RoundManagement.EarlierCount | backend/app/services/round_management_service.py:39 | the number of rounds numbered below `n` never exceeds the number of rounds |
| RoundManagement.GetPreviousVerses | backend/app/services/round_management_service.py:23-55 | the loop yields exactly the entries of the rounds numbered below `n`, rapper1's verse before rapper2's, in the order of the rounds |
| RoundManagement.PreviousVersesAppendLater | backend/app/services/round_management_service.py:39 | a round numbered `n` or later adds nothing to the context of round `n` |
| RoundManagement.PreviousVersesFirstRound | backend/app/services/round_management_service.py:39 | round 1 gets no context |
| RoundManagement.PreviousVersesShape | backend/app/services/round_management_service.py:38-53 | at most two entries per earlier round, exactly two when every round has both verses, each attributed to one of the two rappers |
| RoundManagement.PreviousVersesFromEarlierRounds | backend/app/services/round_management_service.py:38-53 | every entry quotes a verse of a round numbered below `n`, under that verse's rapper |
| RoundManagement.CreateRound | backend/app/services/round_management_service.py:57-93 | a number outside 1..3 is rejected before the repository is touched; an unknown battle is an error; otherwise a fresh round with defaults is appended to the battle |
| RoundManagement.AddVersesToRound | backend/app/services/round_management_service.py:95-128 | the repository's outcome, errors passed on unchanged |
| BattleCrud.CreateBattle | backend/app/services/battle_crud_service.py:21-45 | the battle the repository stored: a fresh id, the request's fields, appended to the insertion order |
| BattleCrud.GetBattle | backend/app/services/battle_crud_service.py:47-64 | the stored battle, or None without raising for an unknown id |
| BattleCrud.ListBattles | backend/app/services/battle_crud_service.py:66-79 | the stored battles in insertion order |
| BattleCrud.WithWinner | backend/app/services/battle_crud_service.py:100-101 | the winner is set to the given name and the status to "completed"; rounds, counters, current round and id are unchanged |
| BattleCrud.UpdateBattleWinner | backend/app/services/battle_crud_service.py:81-108 | an unknown battle gives None and no change; otherwise the name is stored as given, unchecked against the contestants, and the battle is completed |
| JudgeAgent.ExtractWinner | backend/app/agents/judge_agent.py:99-114 | the winner is always one of the two names, and the verdict text is passed on unchanged as the feedback |
| JudgeAgent.ExtractWinnerSecond | backend/app/agents/judge_agent.py:100-112 | rapper2 wins exactly when the verdict names rapper2 and does not name rapper1 (rapper1 is the default) |
| JudgeAgent.ExtractWinnerFirstNamed | backend/app/agents/judge_agent.py:103-107 | a verdict containing "Winner: <rapper1>" goes to rapper1, whatever else it says |
| JudgeAgent.ExtractWinnerSecondNamed | backend/app/agents/judge_agent.py:108-112 | a verdict containing "The winner is <rapper2>" that never names rapper1 goes to rapper2 |
| JudgeAgent.ExtractWinnerIgnoresCase | backend/app/agents/judge_agent.py:102 | lowercasing the verdict first does not change the winner |
| JudgeAgent.JudgeRound | backend/app/agents/judge_agent.py:57-83 | a failed model call gives the fixed pair ("Error", "Exception occurred while judging the round. Try again."); a reply gives a contestant and the reply as feedback |
| Judgment.FallbackJudgment | backend/app/services/judgment_service.py:72-87 | either contestant, with the fixed random-selection explanation |
| Judgment.JudgeRoundAi | backend/app/services/judgment_service.py:25-70 | the result is always a contestant; a missing verse falls back; otherwise the judge's verdict when it names a contestant, else the fallback |
| Judgment.ReplyIsUsed | backend/app/services/judgment_service.py:56-59 | a reply from the judge always passes the contestant check |
| Judgment.FailedCallFallsBack | backend/app/services/judgment_service.py:56-59 | after a failed judge call, the "Error" pair passes the check exactly when a contestant is named "Error" |
| Judgment.ApplyJudgment | backend/app/services/judgment_service.py:127-151 | the judged round gets the winner, "completed", the user flag and the feedback when given; no other round changes; rapper1 is credited only for their own name, rapper2 for any other name |
| Judgment.ApplyJudgmentCounts | backend/app/services/judgment_service.py:144-151 | each verdict adds exactly one win in total and completes at most one more round |
| Judgment.DetermineBattleWinner | backend/app/services/judgment_service.py:169-196 | the result is one of the outcomes the rules allow, the tie broken either way |
| Judgment.WinnerIffComplete | backend/app/services/judgment_service.py:179-196 | a winner is decided exactly when the battle is complete as `is_battle_complete` defines it, and it is always a contestant |
| Judgment.WinnerNotBehind | backend/app/services/judgment_service.py:179-194 | while at most three wins were handed out, the winner never has fewer round wins than the loser |
| Judgment.WinnerCanTrailAfterRejudging | backend/app/services/judgment_service.py:180-181 | rapper1 is checked first, so with two wins against three after re-judging, rapper1 still wins |
| Judgment.Settle | backend/app/services/judgment_service.py:154-157 | a non-empty winner name is stored and completes the battle; otherwise the battle is unchanged |
| Judgment.UserFeedback | backend/app/services/judgment_service.py:140 | the user's feedback counts exactly when it is present and non-empty |
| Judgment.JudgeRoundAndUpdateBattle | backend/app/services/judgment_service.py:89-167 | unknown battle, unknown round and a missing user verdict are errors that change nothing; otherwise the verdict (AI: a contestant with its feedback, the extracted winner when the judge replied; user: their winner and feedback) is applied, the battle winner decided and the battle stored |
| Judgment.JudgeRoundAndUpdateBattleAsWritten | backend/app/services/judgment_service.py:127-141 | as written: the AI path, and the user path with feedback, set `user_judgment` on the stored round and then fail on the undeclared `feedback` field; the user path without feedback succeeds |
| Orchestration.GeneratedRoundKeepsOutcome | backend/app/services/battle_orchestration_service.py:202-245 | generating a round judges nothing: completed rounds, completion and the possible winners stay as they were |
| Orchestration.GeneratedRoundCoherent | backend/app/services/battle_orchestration_service.py:202-245 | appending the next round number keeps a battle coherent (rounds numbered 1, 2, ... in order, at most three, unique ids, the last one current, a winner exactly when completed); so does the first round of a new battle |
| Orchestration.AppendedRoundCoherent | backend/app/services/battle_orchestration_service.py:221-245 | a fresh round numbered next, appended and made current, with completed rounds unchanged, keeps a battle coherent |
| Orchestration.AppendedRoundShape | backend/app/services/battle_orchestration_service.py:221-242 | rounds numbered from 1 with distinct ids stay so when a fresh round numbered next is appended |
| Orchestration.JudgedCoherent | backend/app/services/judgment_service.py:127-160 | a verdict followed by the winner decision keeps a battle coherent and keeps its rounds and current round |
| Orchestration.ApplyJudgmentCoherent | backend/app/services/judgment_service.py:143-151 | recording a verdict on one round keeps a battle coherent |
| Orchestration.SettleCoherent | backend/app/services/judgment_service.py:154-157 | deciding the winner keeps a battle coherent and its rounds unchanged |
| Orchestration.GeneratedRoundUnjudged | backend/app/services/battle_orchestration_service.py:202-245 | generating a round keeps a battle free of verdicts |
| Orchestration.GeneratedRoundIntro | backend/app/services/battle_orchestration_service.py:221-245 | a fresh round with both generated verses, appended and made current, is what generating round `n` means |
| Orchestration.WithWinnerCoherent | backend/app/services/battle_crud_service.py:100-101 | recording any winner name keeps a battle coherent |
| Orchestration.FillLastRound | backend/app/services/battle_orchestration_service.py:221-242 | filling the verses of the round just appended changes only that last round |
| Orchestration.GenerateBattleRound | backend/app/services/battle_orchestration_service.py:202-251 | a round number outside 1..3 is rejected with nothing changed; otherwise round `n` is appended with both verses from the generator, given the earlier rounds' verses, and made current; no other battle changes |
| Orchestration.StoreRoundVerses | backend/app/services/battle_orchestration_service.py:239-245 | both verses are stored in the new round and its number made current, in that battle only |
| Orchestration.GenerateBattleWithVerses | backend/app/services/battle_orchestration_service.py:73-104 | a new battle holding exactly one coherent round, numbered 1, with both verses |
| Orchestration.GenerateCompleteBattle | backend/app/services/battle_orchestration_service.py:28-71 | a new battle with three coherent, unjudged rounds and no winner; the early `break` and the winner update are unreachable |
| Orchestration.ContinueBattleToNextRound | backend/app/services/battle_orchestration_service.py:106-152 | an unknown battle is an error; a complete battle or one at round 3 is returned unchanged; otherwise the next round is generated, coherence is kept, and the completion branch cannot run |
| Orchestration.JudgedThenContinuedCoherent | backend/app/services/battle_orchestration_service.py:178-193 | a verdict followed by the next round when the battle is open keeps a battle coherent, adds at most one round, and an added round leaves the battle incomplete |
| Orchestration.NextRoundAfterVerdict | backend/app/services/battle_orchestration_service.py:186-193 | the next round is generated when the battle is neither complete nor at three rounds (and round 3 is not current); otherwise nothing changes |
| Orchestration.JudgeRound | backend/app/services/battle_orchestration_service.py:154-200 | unknown battle or round is an error with no change; otherwise the stored battle is the judged battle (the user's verdict when given, else a contestant chosen by the AI judge, the extracted winner when it replied) followed by the next round when open; coherence is kept |
| VerseGeneration.SampleLines | backend/app/services/verse_generation_service.py:118 | the four lines `random.sample` picks, in the order of the sampled positions |
| VerseGeneration.FallbackLinesShape | backend/app/services/verse_generation_service.py:107-116 | the eight fixed lines are pairwise different and none holds a line break |
| VerseGeneration.FallbackContentLines | backend/app/services/verse_generation_service.py:118-119 | a fallback verse splits into exactly four different lines, each one of the fixed lines |
| VerseGeneration.GenerateFallbackVerses | backend/app/services/verse_generation_service.py:91-133 | two independently sampled fallback verses, tagged with the round and each rapper's name |
| VerseGeneration.LastContentFor | backend/app/services/verse_generation_service.py:59-65 | the content of the last entry under the name, none exactly when no entry has the name |
| VerseGeneration.SecondContent | backend/app/services/verse_generation_service.py:66-71 | rapper2 never gets a verse when both names are the same, since the `elif` is only tried when rapper1's name does not match |
| VerseGeneration.GenerateVersesForRound | backend/app/services/verse_generation_service.py:20-89 | both verses carry the round and the rappers' names; the contents are the last entry for each rapper when both are found, otherwise two fallback verses, always so when the names coincide or the generator raised |
| DataCache.CacheKeyNormalises | backend/app/services/data_cache_service.py:50 | names that differ only in letter case or surrounding whitespace share one key |
| DataCache.CacheKeyIdempotent | backend/app/services/data_cache_service.py:87 | a key is its own key |
| DataCache.Lookup | backend/app/services/data_cache_service.py:49-66 | nothing exactly when the key is absent or the entry is past its lifetime, otherwise the stored entry |
| DataCache.Override | backend/app/services/data_cache_service.py:94-101 | a given field replaces the stored one; an absent one keeps it |
| DataCache.Merge | backend/app/services/data_cache_service.py:90-111 | the written entry has the fresh timestamp, keeps the stored name for an existing entry, and takes the name as spelled for a new one |
| DataCache.MergeNothing | backend/app/services/data_cache_service.py:92-102 | a write with no fields only refreshes an existing entry's timestamp |
| DataCache.MergeTwice | backend/app/services/data_cache_service.py:92-111 | writing the same fields twice equals writing them once at the later time |
| DataCache.MergeGivenFieldWins | backend/app/services/data_cache_service.py:94-101 | each field given on a write is what the entry then holds |
| DataCache.WriteThenRead | backend/app/services/data_cache_service.py:39-111 | after a write, a read under any spelling with the same key returns the merged entry until its lifetime has passed |
| DataCache.WriteThenExpire | backend/app/services/data_cache_service.py:57-64 | once the lifetime has passed, the same read finds nothing |
| DataCache.WriteLeavesOthers | backend/app/services/data_cache_service.py:105 | a write under one key leaves reads of every other key as they were |
| DataCache.MergeInto | backend/app/services/data_cache_service.py:92-102 | the field-by-field update of an existing entry gives the merged entry |
| DataCache.DataCacheService.constructor | backend/app/services/data_cache_service.py:28-37 | the given lifetime and an empty cache |
| DataCache.DataCacheService.GetRapperData | backend/app/services/data_cache_service.py:39-66 | returns the lookup's result; an expired entry is removed, and nothing else changes |
| DataCache.DataCacheService.CacheRapperData | backend/app/services/data_cache_service.py:68-111 | exactly the key's entry becomes the merged entry; every entry stays under the key of its stored name |
| PromptService.Closing | backend/app/services/prompt_service.py:30 | the position found closes a format spec: it holds the closing brace that balances the field's opening brace |
| PromptService.BracketEnd | backend/app/services/prompt_service.py:30 | the first closing bracket of an index at or after the start, or the end of the field |
| PromptService.NameEnd | backend/app/services/prompt_service.py:30 | the field name ends at a conversion, a format spec or the closing brace outside an index, or at the end of the template; an opening brace outside an index is an error |
| PromptService.SpecField | backend/app/services/prompt_service.py:30 | a format spec is read up to the brace that balances the field, and an unbalanced one is an unmatched-brace error |
| PromptService.ParseField | backend/app/services/prompt_service.py:30 | a field read from the template ends in its closing brace and takes at least two characters |
| PromptService.KeyEnd | backend/app/services/prompt_service.py:30 | the key of a field name stops at its first attribute dot or index bracket |
| PromptService.Token | backend/app/services/prompt_service.py:30 | each successful step of the template scan consumes at least one character and no more than remain |
| PromptService.FormatPlain | backend/app/services/prompt_service.py:30 | a template without braces formats to itself |
| PromptService.ClosingExtend | backend/app/services/prompt_service.py:30 | the closing brace of a field does not depend on the text after it |
| PromptService.ClosingPlain | backend/app/services/prompt_service.py:30 | a format spec without braces ends at the next closing brace |
| PromptService.NameEndPlain | backend/app/services/prompt_service.py:30 | a plain keyword name is read whole, with no conversion, spec, attribute or index |
| PromptService.NameEndSkips | backend/app/services/prompt_service.py:30 | the name scan reads past characters that are neither braces, brackets, colons nor exclamation marks |
| PromptService.KeyEndSkips | backend/app/services/prompt_service.py:30 | the key scan reads past characters other than a dot or an opening bracket |
| PromptService.FormatFieldThen | backend/app/services/prompt_service.py:30-34 | a field is replaced by its keyword argument and formatting continues after it; a missing argument is a missing-key error naming it |
| PromptService.FormatField | backend/app/services/prompt_service.py:30 | a template that is one field formats to the argument's value |
| PromptService.IndexedNameEnd | backend/app/services/prompt_service.py:30 | an index after the key is skipped whole while the name is read, braces inside it included |
| PromptService.IndexedFieldParse | backend/app/services/prompt_service.py:30 | a field with an index has the whole indexed name and no conversion or spec |
| PromptService.IndexedField | backend/app/services/prompt_service.py:30-34 | with an index after the key, the key alone is looked up: an empty or numeric key is positional, a missing key is a missing-key error naming it |
| PromptService.UnclosedIndex | backend/app/services/prompt_service.py:30 | an index left open runs to the end of the template, so the field is never closed |
| PromptService.BraceInName | backend/app/services/prompt_service.py:30 | an opening brace in a field name outside an index is an error whatever follows |
| PromptService.PositionalIndexExample | backend/app/services/prompt_service.py:30 | a brace inside the index of an empty key gives the positional-field error |
| PromptService.MissingIndexExample | backend/app/services/prompt_service.py:30-34 | with the variable missing a brace inside its index still gives the missing-variable error naming it |
| PromptService.UnclosedIndexExamples | backend/app/services/prompt_service.py:30 | an index left open gives the unclosed-field error with or without a key |
| PromptService.BraceInNameExample | backend/app/services/prompt_service.py:30 | a brace after a key in the name gives the brace-in-field-name error |
| PromptService.BracketEndExtend | backend/app/services/prompt_service.py:30 | an index closed inside a prefix closes at the same place whatever follows |
| PromptService.NameEndExtend | backend/app/services/prompt_service.py:30 | a field name that ends inside a prefix ends at the same place whatever follows |
| PromptService.SpecFieldExtend | backend/app/services/prompt_service.py:30 | a format spec closed inside a prefix is read the same way whatever follows |
| PromptService.ParseFieldExtend | backend/app/services/prompt_service.py:30 | a field read from a prefix is read the same way whatever follows |
| PromptService.TokenExtend | backend/app/services/prompt_service.py:30 | a scan step that succeeds on a prefix is taken the same way whatever follows |
| PromptService.FormatConcat | backend/app/services/prompt_service.py:30 | once a prefix formats, the rest formats on its own and is appended |
| PromptService.PrependTwice | backend/app/services/prompt_service.py:30 | prepending twice is prepending the concatenation |
| PromptService.FormatMissing | backend/app/services/prompt_service.py:31-35 | after a prefix that formats, the first missing keyword decides the error |
| PromptService.FormatTemplate | backend/app/services/prompt_service.py:19-35 | succeeds exactly when str.format does, with its text; a missing key becomes the missing-variable error naming that variable |
| PromptService.GetPrompt | backend/app/services/prompt_service.py:94-144 | an unknown category is reported as such; otherwise the selected string, or a table's template entry |
| PromptService.GetPromptCategories | backend/app/services/prompt_service.py:115-123 | only battle, rapper, evaluation and system are categories |
| PromptService.GetPromptNotFound | backend/app/services/prompt_service.py:127-144 | a missing key, or a missing subkey of a table, is "Prompt not found" under the dotted path |
| PromptService.GetPromptShapes | backend/app/services/prompt_service.py:133-141 | a string is its own template, a table with a template entry gives that entry, anything else is an invalid template format |
| PromptService.GetPromptEmptySubkey | backend/app/services/prompt_service.py:128 | an empty subkey is treated as no subkey |
| PromptService.SystemMessageFrame | backend/app/services/prompt_service.py:176-206 | a built message begins with the formatted base template and the common ending was read |
| PromptService.SystemMessageEnding | backend/app/services/prompt_service.py:204-209 | with no previous verses the message ends with the common ending verbatim |
| PromptService.SystemMessageParts | backend/app/services/prompt_service.py:176-233 | a built message is base, middle, ending and context sections in order, each of which succeeded |
| PromptService.FourParts | backend/app/services/prompt_service.py:177-233 | the concatenation of the four sections begins with the base and, with no context, ends with the ending |
| PromptService.MiddleSectionChoice | backend/app/services/prompt_service.py:184-202 | the biographical section when all three facts are present, else the research section in the first round, else nothing |
| PromptService.FormattedVersesCount | backend/app/services/prompt_service.py:214-224 | one formatted entry per previous verse |
| PromptService.GetRapperSystemMessage | backend/app/services/prompt_service.py:146-233 | the appending method returns exactly the message or error the sections define |
| PromptService.FormattedVersesErr | backend/app/services/prompt_service.py:216-224 | a failure formatting an earlier verse is the failure of the whole list |
| PromptService.JudgeSystemPromptRaw | backend/app/services/prompt_service.py:235-243 | the judge system prompt is the raw template entry, not formatted |
| PromptService.JudgeInputFormatted | backend/app/services/prompt_service.py:245-256 | the judge input is the template entry formatted with the given variables; a missing one is named |
| RapperAgent.VerseStart | backend/app/agents/rapper_agent.py:331-338 | the first line that is not blank and is no preface line; every earlier line is blank or a preface |
| RapperAgent.KeepVerseLines | backend/app/agents/rapper_agent.py:328-341 | the `in_verse` loop keeps exactly the lines from the first verse line on |
| RapperAgent.ExtractVerse | backend/app/agents/rapper_agent.py:307-350 | a fenced block's inner part stripped, else the kept lines joined and stripped, else the message itself; an empty list gives the error text |
| RapperAgent.NonBlankHeadKeeps | backend/app/agents/rapper_agent.py:343-345 | a message whose first line is not blank does not strip to nothing |
| RapperAgent.PlainVerseKept | backend/app/agents/rapper_agent.py:327-348 | without fences, a message starting with verse text comes back whole, only stripped |
| RapperAgent.PreambleDropped | backend/app/agents/rapper_agent.py:332-341 | a preface line before the verse is dropped |
| RapperAgent.ExtractionNotEmpty | backend/app/agents/rapper_agent.py:343-348 | outside a fenced block the result is empty only for an empty message |
| RapperAgent.GenerateVerse | backend/app/agents/rapper_agent.py:215-260 | a failure gives "Error generating verse: " followed by the error text; success gives the extracted verse |
| RapperAgent.ToolLines | backend/app/agents/rapper_agent.py:168-178 | the vector-store tool line first, then one line per MCP tool in order |
| RapperAgent.GetAvailableToolsInfo | backend/app/agents/rapper_agent.py:161-184 | the intro, the tool lines joined by newlines, and the closing text |
| RapperAgent.RetrieveToolLineOneLine | backend/app/agents/rapper_agent.py:170-173 | the vector-store tool line is a single line |
| RapperAgent.ToolsListedOnePerLine | backend/app/agents/rapper_agent.py:175-182 | when no tool text holds a newline, splitting the listing gives back the tool lines, vector-store tool first |
| ArtistRetrieval.EffectiveKSpec | backend/app/tools/artist_retrieval_tool.py:71 | k is 5 when missing or 0, capped at 10, and itself otherwise |
| ArtistRetrieval.QueriesSpec | backend/app/tools/artist_retrieval_tool.py:73-86 | the style words appear in both search queries only when a style is given; the fixed queries otherwise |
| ArtistRetrieval.SafeSearch | backend/app/tools/artist_retrieval_tool.py:102-118 | the search's documents, or none when the search failed |
| ArtistRetrieval.SimilarRequestSpec | backend/app/tools/artist_retrieval_tool.py:80-88 | the similar search runs exactly when asked for and fewer than k artist documents came back, asking for twice the shortfall, at most 20 |
| ArtistRetrieval.KeepOthersSpec | backend/app/tools/artist_retrieval_tool.py:90-93 | the filter fails exactly when some artist value is not a string, on such a value; otherwise it keeps exactly the documents by other artists, compared case-insensitively |
| ArtistRetrieval.Take | backend/app/tools/artist_retrieval_tool.py:94 | a prefix of at most n elements, the whole list when it is short enough |
| ArtistRetrieval.RetrievalSpec | backend/app/tools/artist_retrieval_tool.py:70-96 | artist documents come from the artist query; similar documents exist only when asked for, come from the style query, are by other artists and never bring the total above k |
| ArtistRetrieval.SimilarFromKept | backend/app/tools/artist_retrieval_tool.py:90-94 | at most the shortfall of similar documents, all from the search and by other artists |
| ArtistRetrieval.Preview | backend/app/tools/artist_retrieval_tool.py:153-157 | at most 1503 characters; a lyric up to 1500 characters is shown whole, a longer one as its first 1500 and "..." |
| ArtistRetrieval.SampleStep | backend/app/tools/artist_retrieval_tool.py:150-167 | one more artist document adds its numbered sample, its listed genres and its song count |
| ArtistRetrieval.ArtistSection | backend/app/tools/artist_retrieval_tool.py:144-178 | the loop with its genre set and song counter builds exactly the artist section |
| ArtistRetrieval.ExampleStep | backend/app/tools/artist_retrieval_tool.py:186-198 | one more similar document adds its example and its artist label |
| ArtistRetrieval.AppendExample | backend/app/tools/artist_retrieval_tool.py:190-198 | a similar document with lyrics adds its heading line and preview; one without adds nothing |
| ArtistRetrieval.SimilarSection | backend/app/tools/artist_retrieval_tool.py:180-202 | the loop with its artist set builds exactly the similar-artists section |
| ArtistRetrieval.FormatResults | backend/app/tools/artist_retrieval_tool.py:120-214 | the appended parts, joined by newlines, are exactly the rendering of both document lists |
| ArtistRetrieval.Arun | backend/app/tools/artist_retrieval_tool.py:51-100 | the rendering of what was retrieved, or "Error retrieving data for" the artist with the error text when the filter raised |
| ArtistRetrieval.SampleBounds | backend/app/tools/artist_retrieval_tool.py:150-159 | each sample is a heading and a preview of at most 1503 characters |
| ArtistRetrieval.ShownAtMostThree | backend/app/tools/artist_retrieval_tool.py:150-186 | only the first three documents of each list are rendered |
| ArtistRetrieval.GenresOfSpec | backend/app/tools/artist_retrieval_tool.py:161-163 | a genre is collected exactly when one of the documents lists it |
| ArtistRetrieval.GenresLineSpec | backend/app/tools/artist_retrieval_tool.py:169-170 | the genres line lists each collected genre once, in ascending order, whatever order they were found in |
| ArtistRetrieval.ResultPartsShape | backend/app/tools/artist_retrieval_tool.py:139-214 | the text opens with the header, the total counts both lists, and the no-data notice closes it exactly when both are empty |
| SearchTool.FormatResults | backend/app/tools/search_tool.py:52-76 | the appending loop returns exactly the rendering of the results |
| SearchTool.AllEntryLines | backend/app/tools/search_tool.py:67-74 | four lines per result |
| SearchTool.BodyIsLines | backend/app/tools/search_tool.py:65-74 | the rendering is the heading, a blank line and every entry's lines, each line ended by a break |
| SearchTool.BodyStep | backend/app/tools/search_tool.py:67-74 | one loop turn appends the next entry's lines |
| SearchTool.EntryTerminated | backend/app/tools/search_tool.py:72-74 | an entry's text is its four lines, each ended by a break |
| SearchTool.EntryLinesAt | backend/app/tools/search_tool.py:67-74 | result i occupies lines 4i to 4i+3 of the entry block, numbered i+1 |
| SearchTool.FormattedResultsLines | backend/app/tools/search_tool.py:62-76 | without breaks in the fields, the lines are the heading, a blank line, then per result in order its numbered bold title, content, source and a blank line |
| SearchTool.BodyOneLine | backend/app/tools/search_tool.py:65-74 | no rendered line holds a break when no field does |
| SearchTool.EntriesInLines | backend/app/tools/search_tool.py:67-74 | every entry sits four lines apiece after the two opening lines |
| SearchTool.EntryInLines | backend/app/tools/search_tool.py:67-74 | entry i sits at lines 2+4i to 5+4i |
| SearchTool.NumberLineOneLine | backend/app/tools/search_tool.py:72-74 | no line of one entry holds a break when its fields hold none |
| SearchTool.Search | backend/app/tools/search_tool.py:20-36 | the query's results rendered; a response without results renders as none |
| SearchTool.GetRapperInfo | backend/app/tools/search_tool.py:79-95 | the biography query's results rendered |
| SearchTool.BodyStart | backend/app/tools/search_tool.py:65 | the rendering of a non-empty list opens with the heading and a blank line |
| SearchTool.FormattedResultsShape | backend/app/tools/search_tool.py:62-65 | no results is exactly the no-information notice; otherwise the text opens with the heading |
| StyleTool.FormatStyle | backend/app/tools/style_tool.py:54-76 | the appending method returns exactly the style's rendering |
| StyleTool.ExampleLines | backend/app/tools/style_tool.py:73-74 | one line per example, numbered from 1 in order |
| StyleTool.ExampleBlockLines | backend/app/tools/style_tool.py:71-74 | the examples block is its lines, each ended by a break |
| StyleTool.HeadLines | backend/app/tools/style_tool.py:68-69 | the head is the bold name, a blank line, the description and a blank line |
| StyleTool.StyleTextIsLines | backend/app/tools/style_tool.py:64-76 | the rendering is its lines each ended by a break |
| StyleTool.StyleTextLines | backend/app/tools/style_tool.py:64-76 | without breaks in the fields, the lines are name, blank, description, blank, then only when there are examples the heading and one numbered line per example |
| StyleTool.StyleLinesOneLine | backend/app/tools/style_tool.py:64-76 | no rendered line holds a break when no field does |
| StyleTool.StyleTextStart | backend/app/tools/style_tool.py:68-69 | the rendering opens with the bold name and the description |
| StyleTool.GetStyle | backend/app/tools/style_tool.py:15-30 | a missing or empty record is the error naming the style; otherwise the rendering |
| StyleTool.SearchStyles | backend/app/tools/style_tool.py:33-52 | the appending loop returns exactly the heading followed by each rendering and a blank line |
| StyleTool.StylesBodyAt | backend/app/tools/style_tool.py:49-50 | rendering i follows the renderings before it, in list order |
| StyleTool.StylesTextShape | backend/app/tools/style_tool.py:45-48 | no match is exactly the notice naming the query; otherwise the text opens with the heading |
| StyleTool.StylesBodyStart | backend/app/tools/style_tool.py:48 | the text over any list of matches opens with the heading and a blank line |
| StringOrder.BelowIrreflexive | backend/app/tools/artist_retrieval_tool.py:170 | no string sorts before itself |
| StringOrder.BelowTransitive | backend/app/tools/artist_retrieval_tool.py:170 | the string order is transitive |
| StringOrder.BelowAsymmetric | backend/app/tools/artist_retrieval_tool.py:170 | the string order is asymmetric |
| StringOrder.BelowTotal | backend/app/tools/artist_retrieval_tool.py:170 | any two different strings are ordered |
| StringOrder.LeastExists | backend/app/tools/artist_retrieval_tool.py:170 | a non-empty set of strings has a least member |
| StringOrder.LeastUnique | backend/app/tools/artist_retrieval_tool.py:170 | the least member is unique |
| StringOrder.SortedSetSpec | backend/app/tools/artist_retrieval_tool.py:170 | sorted of a set lists every member once, in strictly ascending order |
| StringOrder.AscendingUnique | backend/app/tools/artist_retrieval_tool.py:170 | a strictly ascending list is determined by its members |
| CsvProcessing.LowerAll | backend/app/services/csv_processor_service.py:70 | each encoding name lower-cased, in order |
| CsvProcessing.CommonEncodingsShape | backend/app/services/csv_processor_service.py:67 | the five common encodings are lower-case and distinct up to case |
| CsvProcessing.OtherEncodingsDropOne | backend/app/services/csv_processor_service.py:76 | filtering out the one common name the detected name matches removes exactly that entry |
| CsvProcessing.OtherEncodingsKeepAll | backend/app/services/csv_processor_service.py:76 | a name matching no entry filters nothing out |
| CsvProcessing.PrependDistinct | backend/app/services/csv_processor_service.py:70-75 | a name matching none of the common names can go in front without a repeat |
| CsvProcessing.DropOne | backend/app/services/csv_processor_service.py:76 | dropping one common entry keeps the rest distinct and keeps every other entry |
| CsvProcessing.FallbacksKnown | backend/app/services/csv_processor_service.py:74-77 | a detected common name comes first, followed by the other four common names: five, no two alike |
| CsvProcessing.FallbacksUnknown | backend/app/services/csv_processor_service.py:70-71 | an uncommon detected name is followed by all five common names: six, no two alike |
| CsvProcessing.EncodingFallbacksSpec | backend/app/services/csv_processor_service.py:56-79 | the five common names when nothing was detected; otherwise the detected name first, then the common names minus the one it matches up to case; never a name twice (the chunker's copy at backend/csv_chunker/csv_processor.py:81-110 is the same) |
| CsvProcessing.Entries | backend/app/services/csv_processor_service.py:303-306 | one parsed entry per line of the row |
| CsvProcessing.MapOfStep | backend/app/services/csv_processor_service.py:303-306 | a line without a colon leaves the dictionary alone; one with a colon sets its key |
| CsvProcessing.ParseFields | backend/app/services/csv_processor_service.py:302-306 | the key:value loop builds exactly the dictionary of the row's lines |
| CsvProcessing.LastWith | backend/app/services/csv_processor_service.py:303-306 | the entry found sets the key |
| CsvProcessing.LastWithSpec | backend/app/services/csv_processor_service.py:303-306 | the last entry setting the key is found, and none only when no entry sets it |
| CsvProcessing.MapOfSpec | backend/app/services/csv_processor_service.py:303-306 | a key is present exactly when some entry sets it, with the value of the last such entry |
| CsvProcessing.FieldsOfSpec | backend/app/services/csv_processor_service.py:302-306 | a key is present exactly when some line carries it, valued as the last line that does; later lines overwrite, colon-free lines are ignored |
| CsvProcessing.MapOfStripped | backend/app/services/csv_processor_service.py:306 | stripped entry values build a dictionary whose values are stripped |
| CsvProcessing.FieldsOfStripped | backend/app/services/csv_processor_service.py:306 | every value of a parsed row is already stripped |
| CsvProcessing.ParseDocumentToArtistData | backend/app/services/csv_processor_service.py:287-313 | the parsed fields, with missing ones as "" and missing Songs as 0, become the validated record, or the validation or conversion error (the chunker, backend/csv_chunker/csv_processor.py:279-306, cleans the lyric and does not validate) |
| CsvProcessing.ServiceAcceptedMeansChunkerSame | backend/csv_chunker/csv_processor.py:298-306 | a row the service accepts gives the chunker the same record |
| CsvProcessing.FromFieldsAgree | backend/csv_chunker/csv_processor.py:298-306 | on stripped artist and genres, an accepted service record equals the chunker's |
| CsvProcessing.AcceptedUnchanged | backend/csv_chunker/csv_processor.py:298-305 | the service's validated record of stripped text is the chunker's cleaned record |
| CsvProcessing.FieldStripped | backend/app/services/csv_processor_service.py:309-312 | a field read from a stripped dictionary is stripped, the default included |
| CsvProcessing.MissingSongs | backend/app/services/csv_processor_service.py:311 | a row without a Songs line is rejected by the service, whose validator wants a positive count, but kept by the chunker with 0 songs |
| CsvProcessing.ChunkerLyricIsClean | backend/csv_chunker/csv_processor.py:298-299 | the chunker stores the lyric on one line, without a carriage return, stripped |
| CsvProcessing.ChunkerLyric | backend/csv_chunker/csv_processor.py:298-305 | the chunker's record holds the cleaned lyric whenever the Songs text converts |
| CsvProcessing.ChunkerRecordLyric | backend/csv_chunker/csv_processor.py:299 | the chunker's lyric is the cleaned text |
| CsvProcessing.SongsRequired | backend/app/services/csv_processor_service.py:311 | either processor builds a record only when the Songs text converts; the chunker then always does |
| CsvProcessing.ParseStep | backend/app/services/csv_processor_service.py:258-269 | one more row adds its record to the parsed rows, or its error to the errors |
| CsvProcessing.ParsedOrFailed | backend/app/services/csv_processor_service.py:258-269 | every row of a batch either parses or leaves one error |
| CsvProcessing.ProcessDocumentBatch | backend/app/services/csv_processor_service.py:242-285 | parse failures count as failed; a successful store counts its ids, a failed one counts every parsed row as failed and adds its error |
| CsvProcessing.BatchAccounting | backend/app/services/csv_processor_service.py:258-279 | every row counts once when the store returns one id per record; a failed store makes every row failed |
| CsvProcessing.Remainder | backend/app/services/csv_processor_service.py:196-226 | fewer than n rows are pending after the last full batch |
| CsvProcessing.Outcomes | backend/app/services/csv_processor_service.py:210-217 | one result per batch |
| CsvProcessing.ChunkStep | backend/app/services/csv_processor_service.py:207-220 | a row that completes the pending batch closes it; otherwise it joins it |
| CsvProcessing.OutcomesAppend | backend/app/services/csv_processor_service.py:210-217 | one more batch adds its result, from the next store call |
| CsvProcessing.FlushStep | backend/app/services/csv_processor_service.py:210-220 | a row that completes the pending batch sends it to the next store call and empties the batch |
| CsvProcessing.KeepStep | backend/app/services/csv_processor_service.py:207-208 | a row that leaves the pending batch short joins it |
| CsvProcessing.BatchesEnd | backend/app/services/csv_processor_service.py:228-235 | after the last row the pending batch is processed if non-empty |
| CsvProcessing.ProcessCsvInBatches | backend/app/services/csv_processor_service.py:181-240 | the loop yields one result per batch of at most n rows, each total its batch size; when the loader fails, the pending rows become one failed result with the error |
| CsvProcessing.YieldBatch | backend/app/services/csv_processor_service.py:210-226 | the completed batch's result is yielded and the batch restarts |
| CsvProcessing.ChunksCover | backend/app/services/csv_processor_service.py:206-220 | full batches hold exactly n rows and, with the remainder, give back the rows in order |
| CsvProcessing.ChunksSpec | backend/app/services/csv_processor_service.py:196-235 | every batch holds 1 to n rows and the batches give back the rows in order |
| CsvProcessing.FlattenAppend | backend/app/services/csv_processor_service.py:207 | flattening one more batch appends its rows |
| CsvProcessing.SumTotalOutcomes | backend/app/services/csv_processor_service.py:206-208 | the batch totals add up to the rows batched |
| CsvProcessing.BatchTotalsCountRows | backend/app/services/csv_processor_service.py:196-240 | whether the loader fails or not, the totals add up to the rows read |
| CsvProcessing.DetectEncoding | backend/app/services/csv_processor_service.py:29-54 | utf-8 for an unreadable file or a confidence below 0.7; otherwise the detector's guess |
| CsvProcessing.Choose | backend/app/services/csv_processor_service.py:105-136 | success gives at least one row; failure records at least one error |
| CsvProcessing.ChooseEncoding | backend/app/services/csv_processor_service.py:105-136 | the loop returns the first encoding's rows that yields some, or the errors when the last one fails or none yields a row |
| CsvProcessing.ChooseSpec | backend/app/services/csv_processor_service.py:105-136 | over a list without repeats, success exactly when some encoding yields rows, with the rows of the first that does |
| CsvProcessing.FallbacksDistinct | backend/app/services/csv_processor_service.py:56-79 | the fallback list never names an encoding twice |
| CsvProcessing.Tally | backend/app/services/csv_processor_service.py:141-145 | the running sums over the yielded results |
| CsvProcessing.ProcessCsvFile | backend/app/services/csv_processor_service.py:81-157 | the sums over the batch results of the chosen encoding's rows, or no rows, one failure and the errors when no encoding loads |
| CsvProcessing.FileTotals | backend/app/services/csv_processor_service.py:141-149 | a loaded file reports exactly its rows as the total; an unloaded one reports none, one failure and why |

## Left out

- Strings.Lower: `str.lower()` is modelled on ASCII letters only. This affects DataCache.CacheKey (data_cache_service.py:50,87), JudgeAgent.ExtractWinner and its name patterns (judge_agent.py:102-110), ArtistRetrieval.KeepOthers (artist_retrieval_tool.py:93) and CsvProcessing.EncodingFallbacks (csv_processor_service.py:70,76). Python lower-cases "É" to "é", so those two names share a cache key in the source but not in the model.
- Strings.Upper: `str.upper()` is ASCII only, as used by ArtistRetrieval.SimilarHeading (artist_retrieval_tool.py:182). Python maps "ß" to "SS", which the model does not.
- Artist.ValidateSongs: `songs` is a `real`, so the model has no NaN or infinity. In the source, `nan <= 0` is false and a NaN count passes `validate_songs` (artist.py:70).
- ArtistRetrieval.SongsOf: `int(songs_count)` of a NaN or infinite float raises in the source (artist_retrieval_tool.py:167). The model has no such values, so it has no such error.
- ArtistRetrieval.FloatCount: a float `songs_count` is a `real`, and `int()` of it is Artist.Trunc, truncation toward zero. A NaN or an infinity cannot occur in the model.
- DataCache.DataCacheService.GetRapperData: returns the entry by value. In the source `get_rapper_data` returns the stored object itself, and a caller that mutates it changes the cache. Aliasing is not modelled.
- CsvProcessing.ProcessCsvInBatches: the loader's second read (`lazy_load` at csv_processor_service.py:141,206) is not modelled separately from the trial read. The model takes the trial read's rows and an oracle `loadError` for an exception raised after them.
- JudgeAgent.ExtractWinner: the `except` branch of `_extract_winner` that picks a random winner (judge_agent.py:115-121) is not modelled. With string arguments nothing in its `try` block can raise.
- Models.NewRound: the `created_at`/`updated_at` timestamps (round.py:61-68) and the battle's timestamps are not modelled. Nothing in the core reads them.
- Orchestration.GenerateBattleRound: the verse oracle `VerseOracle` takes only the round number and the previous verses. The rapper names, styles and cached enrichment that the source passes to the agent are fixed for a battle, so the oracle absorbs them.
- PromptService.Format: only what the prompts use is modelled: literal text, doubled braces, keyword fields, and the errors str.format raises while it splits a field (a single brace, a field left open, a brace in the name outside an index, an index left open, a bad conversion, an unmatched brace in the format spec) or looks up its key (positional and missing keys). The field is split as CPython 3.11 does: the name first, skipping over an index, then the conversion, then the format spec, whose braces alone are counted. A `!r`/`!a` conversion, a format spec (nested fields included) and attribute or index access on a given key give the error `Unmodelled`, where Python formats the value or raises from the lookup. A field number too long for CPython ("Too many decimal digits in format string") is reported as `PositionalField`, and a key made of non-ASCII decimal digits is read as a keyword where Python reads it as positional.
- PromptService.GetRapperSystemMessage: `round_number` is passed already rendered as a string (`str(int)` is `Strings.NatToString`).
- PromptService.FormatTemplate: the missing-variable message carries the key as `str(KeyError)` gives it, with its quotes stripped. Keys that themselves contain quotes are not distinguished.
- Language-model calls (rapper agent, judge agent, the parallel verse workflow), the MCP client, the LangGraph graph and the thread-id hash are oracles or are not modelled. They are foreign calls.
- RapperAgent: `_create_system_message` (rapper_agent.py:262-305) is not modelled. It only appends the tools listing to the prompt service's message.
- Asynchrony and the cache's lock are not modelled. Each operation is one atomic step, as the lock makes it for the cache.
- `lru_cache` on `get_prompt` is not modelled. It does not change results, because the configuration does not change after loading.
- Loading the TOML files is not modelled; the loaded tables are a parameter. File reading, the temporary file of `process_csv_string`, `chardet` and `CSVLoader` are oracles.
- CsvProcessing: `_process_artist_data` and `process_csv_string` are not modelled. They are a single vector-store call and a temporary-file wrapper around `process_csv_file`.
- Pydantic error texts and exception messages are not modelled as text. Errors are datatype values, with the text supplied by an oracle where the source embeds it.
- The Tavily client's exceptions are not modelled. `search` and `get_rapper_info` do not catch them, so they propagate.
- The HTTP routes and the visualisation scripts are outside the core.
- Logging (`print`, `logger`) is not modelled. It has no effect on results.
- Artist.ParsedGenres: genre items that are not strings, `songs_count` given as a `bool`, `include_similar=None` and a negative `k` in the retrieval tool are not modelled.
- StringOrder: `sorted` over artist labels of mixed types, which raises in Python, is not modelled. Labels are strings.

## Findings

| source | as written | input that shows it | evidently intended | confidence | as-written member | corrected member |
|---|---|---|---|---|---|---|
| backend/app/services/judgment_service.py:131,141 | sets `target_round.feedback`, but `Round` (round.py:19-93) declares `judge_feedback` and no `feedback` field. Assigning an undeclared field of a pydantic model raises `ValueError`, and `judge_round` re-raises it (battle_orchestration_service.py:198-200) | any AI judgment, or a user judgment with non-empty feedback, of an existing round | store the feedback in `judge_feedback` | not executed | Judgment.JudgeRoundAndUpdateBattleAsWritten | Judgment.JudgeRoundAndUpdateBattle |

The rest of the model uses the corrected member: `Orchestration.JudgeRound`
is built on `Judgment.JudgeRoundAndUpdateBattle`.

Where the design description and the code disagree, the model follows the
code:

- The design caps wins at 2 and says the winner is never behind. In the
  code, re-judging a round credits it again, because nothing validates the
  assignment. So wins can exceed 3, and `determine_battle_winner` checks
  rapper1 first. `Judgment.WinnerCanTrailAfterRejudging` exhibits a
  winner with fewer wins than the loser.
- The design rejects a judgment that names neither contestant. In the code,
  `update_round_with_judgment` credits rapper2 for any name other than
  rapper1's (judgment_service.py:144-151); `Judgment.ApplyJudgment`
  states this.
