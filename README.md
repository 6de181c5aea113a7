# Diagnosis core in Dafny

A model of the scoring-and-classification engine of the personality
"diagnosis" application. Given a personality code such as `ENFJ` and a
love-type code such as `FAPO`, the engine works in these stages:

- It encodes the two codes as sixteen 0/1 type flags.
- Five calculators consume the flags:
  - attractiveness (popularity);
  - personality axes;
  - compatibility score and relation flavour;
  - love languages;
  - life allocation.
- It buckets scores into 5- and 10-step levels.
- It searches all 256 partner combinations for the three best matches.
- It assembles a validated `DiagnosisResult`.

The model covers these parts of the source:

- the backend domain calculators and value objects, with their validators;
- the application services and the `CreateDiagnosisUseCase` class;
- the `DiagnosisResult` entity and the request DTO validator;
- the infrastructure duplicates of the algorithms, each proved to compute
  what its domain or application counterpart computes;
- the frontend type lists and form validation.

Each source file becomes one module. The modules follow the source's own
split between pure and imperative code:

- Pure code (validators, arithmetic, lookups) is written as functions.
  Lemmas state what those functions promise.
- In-place sorts are one generic stable insertion sort, `StableSort.SortInPlace`,
  which works on an `array`. It is proved equal to the functional `StableSort.Sort`.
  That function is proved sorted, a permutation and stable.
- The rank-writing loop, the flavour-counting loop and the best-partner
  search are methods with loop invariants. Each is proved against a
  specification function.

Scores are `real`. Every validator that throws in the source returns a
`Result` here, with an error value that names the failing check.

## Model

| member | source | states |
|---|---|---|
| Base.TrimStart | backend/src/domain/valueObjects/MBTIType.ts:47 | the leading part `String.prototype.trim` removes is white space, and what remains is empty or starts with a visible character |
| Base.TrimEnd | backend/src/domain/valueObjects/MBTIType.ts:47 | the trailing part `trim` removes is white space, and what remains is empty or ends with a visible character |
| Base.Trim | backend/src/domain/valueObjects/MBTIType.ts:47 | `String.prototype.trim`: `TrimEnd` of `TrimStart`; `BlankIffTrimEmpty`, `TrimIdempotent`, `TrimUnchanged` and `TrimKeepsBlankness` state its properties |
| Base.BlankIffTrimEmpty | backend/src/domain/valueObjects/MBTIType.ts:47 | a string trims to the empty string exactly when every character is white space |
| Base.TrimUnchanged | backend/src/domain/valueObjects/MBTIType.ts:47 | trimming leaves a string with visible ends unchanged |
| Base.TrimIdempotent | backend/src/domain/valueObjects/MBTIType.ts:47 | trimming twice is trimming once |
| Base.TrimKeepsBlankness | backend/src/domain/valueObjects/MBTIType.ts:47 | a trimmed string is blank exactly when the original is |
| Base.UpperChar | backend/src/domain/valueObjects/MBTIType.ts:47 | `toUpperCase` on one character maps each letter a..z to the letter at the same place in A..Z, changes nothing else, and leaves no lower-case letter |
| Base.Upper | backend/src/domain/valueObjects/MBTIType.ts:47 | `toUpperCase` keeps the length and maps each character on its own |
| Base.UpperUnchanged | backend/src/domain/valueObjects/MBTIType.ts:47 | upper-casing leaves a string without lower-case letters unchanged |
| Base.UpperIdempotent | backend/src/domain/valueObjects/MBTIType.ts:47 | upper-casing twice is upper-casing once |
| Base.NormalizeUnchanged | backend/src/domain/valueObjects/MBTIType.ts:47 | the trim-then-upper-case normalisation leaves a string with visible ends and no lower-case letters unchanged |
| Base.UpperKeepsSpace | backend/src/domain/valueObjects/MBTIType.ts:47 | upper-casing neither creates nor removes white space |
| MbtiType.IsValid | backend/src/domain/valueObjects/MBTIType.ts:38-40 | `isValidMBTIType`: membership in the 16-code list and nothing else; `ValidIffInAlphabets` characterises it letter by letter |
| MbtiType.ValidIffInAlphabets | backend/src/domain/valueObjects/MBTIType.ts:6-40 | a string is in `MBTI_TYPES` exactly when it is four letters from E/I, N/S, T/F, J/P: the list has all 16 combinations and nothing else |
| MbtiType.ListedDistinct | backend/src/domain/valueObjects/MBTIType.ts:16-33 | the list holds 16 pairwise different codes |
| MbtiType.Parse | backend/src/domain/valueObjects/MBTIType.ts:46-56 | `parseMBTIType` accepts exactly when the trimmed, upper-cased value is listed, returns that normal form, and otherwise fails naming the raw value |
| MbtiType.NormalizeListed | backend/src/domain/valueObjects/MBTIType.ts:46-56 | a listed code is its own normal form |
| MbtiType.ParseListed | backend/src/domain/valueObjects/MBTIType.ts:46-56 | parsing accepts every listed code unchanged |
| MbtiType.ParseIdempotent | backend/src/domain/valueObjects/MBTIType.ts:46-56 | parsing a parse result gives the same result |
| MbtiType.ParseLowerCase | backend/src/domain/valueObjects/MBTIType.ts:47 | lower case is forgiven: `"enfj"` parses to `"ENFJ"` |
| MbtiType.ParseInnerSpace | backend/src/domain/valueObjects/MBTIType.ts:47-53 | inner white space is not removed: `"EN FJ"` is rejected |
| MbtiType.GetAxes | backend/src/domain/valueObjects/MBTIType.ts:61-73 | `getMBTIAxes` returns the four letters of the code, each from its axis alphabet |
| LoveType.IsValid | backend/src/domain/valueObjects/LoveType.ts:38-40 | `isValidLoveType`: membership in the 16-code list and nothing else; `ValidIffInAlphabets` characterises it letter by letter |
| LoveType.ValidIffInAlphabets | backend/src/domain/valueObjects/LoveType.ts:6-40 | a string is in `LOVE_TYPES` exactly when it is four letters from L/F, C/A, R/P, O/E |
| LoveType.ListedDistinct | backend/src/domain/valueObjects/LoveType.ts:16-33 | the list holds 16 pairwise different codes |
| LoveType.Parse | backend/src/domain/valueObjects/LoveType.ts:46-56 | `parseLoveType` accepts exactly when the trimmed, upper-cased value is listed, returns that normal form, and otherwise fails naming the raw value |
| LoveType.NormalizeListed | backend/src/domain/valueObjects/LoveType.ts:46-56 | a listed code is its own normal form |
| LoveType.ParseListed | backend/src/domain/valueObjects/LoveType.ts:46-56 | parsing accepts every listed code unchanged |
| LoveType.ParseIdempotent | backend/src/domain/valueObjects/LoveType.ts:46-56 | parsing a parse result gives the same result |
| LoveType.ParseLowerCase | backend/src/domain/valueObjects/LoveType.ts:47 | lower case is forgiven: `"fare"` parses to `"FARE"` |
| LoveType.ParseInnerSpace | backend/src/domain/valueObjects/LoveType.ts:47-53 | inner white space is not removed: `"FA RE"` is rejected |
| LoveType.GetAxes | backend/src/domain/valueObjects/LoveType.ts:61-73 | `getLoveTypeAxes` returns the four letters of the code, each from its axis alphabet |
| TypeFlags.Flag | backend/src/infrastructure/algorithms/common/TypeFlags.ts:32-42 | the `? 1 : 0` flag is 1 exactly when the comparison holds |
| TypeFlags.ParseMbti | backend/src/infrastructure/algorithms/common/TypeFlags.ts:28-45 | each MBTI flag is 1 exactly when the upper-cased character at its position exists and is its letter; a missing character gives 0 |
| TypeFlags.ParseLoveType | backend/src/infrastructure/algorithms/common/TypeFlags.ts:48-65 | each love flag is 1 exactly when the upper-cased character at its position exists and is its letter |
| TypeFlags.GetFlags | backend/src/infrastructure/algorithms/common/TypeFlags.ts:68-90 | `getFlags` copies the eight MBTI flags and the eight love flags into one record |
| TypeFlags.HalvesDetermine | backend/src/infrastructure/algorithms/common/TypeFlags.ts:68-90 | a flag record is determined by its two halves |
| TypeFlags.MbtiPairsSumToOne | backend/src/infrastructure/algorithms/common/TypeFlags.ts:28-45 | for a code within the axis alphabets, each pair E/I, N/S, T/F, J/P has exactly one flag set |
| TypeFlags.LovePairsSumToOne | backend/src/infrastructure/algorithms/common/TypeFlags.ts:48-65 | for a love code within the axis alphabets, each pair L/Fl, C/A, R/Pl, O/El has exactly one flag set |
| TypeFlags.MbtiOutsidePairClears | backend/src/infrastructure/algorithms/common/TypeFlags.ts:28-45 | a character outside its axis pair sets neither flag of that pair |
| TypeFlags.LoveOutsidePairClears | backend/src/infrastructure/algorithms/common/TypeFlags.ts:48-65 | a love character outside its axis pair sets neither flag of that pair |
| TypeFlags.CaseInsensitive | backend/src/infrastructure/algorithms/common/TypeFlags.ts:28-65 | upper-casing the codes first does not change the flags |
| TypeFlags.ListedCodesLegal | backend/src/infrastructure/algorithms/common/TypeFlags.ts:68-90 | listed codes give legal flags: every pair sums to one |
| TypeFlags.MbtiOf | backend/src/infrastructure/algorithms/common/TypeFlags.ts:28-45 | the code read back from legal flags is a listed MBTI code |
| TypeFlags.LoveOf | backend/src/infrastructure/algorithms/common/TypeFlags.ts:48-65 | the code read back from legal flags is a listed love code |
| TypeFlags.DecodeEncode | backend/src/infrastructure/algorithms/common/TypeFlags.ts:68-90 | reading the codes back from the flags of listed codes gives those codes |
| TypeFlags.EncodeDecode | backend/src/infrastructure/algorithms/common/TypeFlags.ts:68-90 | every legal flag record is the flags of the codes read back from it |
| TypeFlags.MbtiEncodeDecode | backend/src/infrastructure/algorithms/common/TypeFlags.ts:28-45 | parsing the MBTI code read back from legal flags gives their MBTI half |
| TypeFlags.LoveEncodeDecode | backend/src/infrastructure/algorithms/common/TypeFlags.ts:48-65 | parsing the love code read back from legal flags gives their love half |
| TypeFlags.MbtiDecodeEncode | backend/src/infrastructure/algorithms/common/TypeFlags.ts:28-45 | a code whose letters come from the four MBTI axes is read back unchanged from any flags whose MBTI half parses from it |
| TypeFlags.LoveDecodeEncode | backend/src/infrastructure/algorithms/common/TypeFlags.ts:48-65 | a code whose letters come from the four love-type axes is read back unchanged from any flags whose love half parses from it |
| TypeFlags.Injective | backend/src/infrastructure/algorithms/common/TypeFlags.ts:68-90 | different pairs of listed codes have different flags |
| TypeFlags.ListedFlags | backend/src/infrastructure/algorithms/common/TypeFlags.ts:68-90 | the flags of codes spelt from the axis letters (the listed codes), field by field, in terms of the code letters |
| TypeFlags.EnfjFareFlags | backend/src/infrastructure/algorithms/common/TypeFlags.ts:68-90 | the flags of ENFJ with FARE, written out |
| TypeFlags.IntjLcroFlags | backend/src/infrastructure/algorithms/common/TypeFlags.ts:68-90 | the flags of INTJ with LCRO, written out |
| TypeFlags.EsfpFapeFlags | backend/src/infrastructure/algorithms/common/TypeFlags.ts:68-90 | the flags of ESFP with FAPE, written out |
| TypeFlags.EsfpFcroFlags | backend/src/infrastructure/algorithms/common/TypeFlags.ts:68-90 | the flags of ESFP with FCRO, written out |
| TypeFlags.EsfpLcpeFlags | backend/src/infrastructure/algorithms/common/TypeFlags.ts:68-90 | the flags of ESFP with LCPE, written out |
| TypeFlags.IntjFapeFlags | backend/src/infrastructure/algorithms/common/TypeFlags.ts:68-90 | the flags of INTJ with FAPE, written out |
| TypeFlags.InfjLcroFlags | backend/src/infrastructure/algorithms/common/TypeFlags.ts:68-90 | the flags of INFJ with LCRO, written out |
| ScoreBuckets.Level | backend/src/application/services/common/ScoreBuckets.ts:6-35 | the level names `S1`…`S10`; the first five are the five-step levels |
| ScoreBuckets.Rank | backend/src/application/services/common/ScoreBuckets.ts:6-35 | the number of a level, inverse of `Level` |
| ScoreBuckets.ToS5 | backend/src/application/services/common/ScoreBuckets.ts:6-12 | `toS5` always yields one of `S1`…`S5` |
| ScoreBuckets.ToS10 | backend/src/application/services/common/ScoreBuckets.ts:15-26 | `toS10` always yields one of `S1`…`S10` |
| ScoreBuckets.LevelFromPercent | backend/src/application/services/common/ScoreBuckets.ts:29-35 | `levelFromPercent` always yields one of `S1`…`S5` |
| ScoreBuckets.ToS5Floor | backend/src/application/services/common/ScoreBuckets.ts:6-12 | `toS5` is the band of width 20 the score falls in, clamped to 1..5 |
| ScoreBuckets.ToS10Floor | backend/src/application/services/common/ScoreBuckets.ts:15-26 | `toS10` is the band of width 10 the score falls in, clamped to 1..10; below 90 no clamping happens at the top |
| ScoreBuckets.LevelFromPercentCount | backend/src/application/services/common/ScoreBuckets.ts:29-35 | `levelFromPercent` is one plus the number of thresholds 10, 20, 35, 50 the percentage reaches |
| ScoreBuckets.NegativeIsLowest | backend/src/application/services/common/ScoreBuckets.ts:6-35 | a negative score lands in `S1` for all three bucketings |
| ScoreBuckets.ToS5Monotone | backend/src/application/services/common/ScoreBuckets.ts:6-12 | a higher score never gets a lower five-step level |
| ScoreBuckets.ToS10Monotone | backend/src/application/services/common/ScoreBuckets.ts:15-26 | a higher score never gets a lower ten-step level |
| ScoreBuckets.LevelFromPercentMonotone | backend/src/application/services/common/ScoreBuckets.ts:29-35 | a higher percentage never gets a lower level |
| ScoreBuckets.S5IsHalfS10 | backend/src/application/services/common/ScoreBuckets.ts:6-26 | the five-step level is the ten-step level halved, rounded up |
| StableSort.Sort | backend/src/domain/services/PersonalityCalculator.ts:62 | the descending sort by a key keeps the length; its properties are the lemmas below |
| StableSort.SortPermutation | backend/src/domain/services/PersonalityCalculator.ts:62 | sorting is a permutation: the multiset of elements is unchanged |
| StableSort.SortSorted | backend/src/domain/services/PersonalityCalculator.ts:62 | the result of `(a, b) => b.score - a.score` sorting is in descending order of key |
| StableSort.SortStable | backend/src/domain/services/PersonalityCalculator.ts:62 | the sort is stable: the elements with any one key value keep their relative order |
| StableSort.SortMembers | backend/src/domain/services/PersonalityCalculator.ts:62-63 | an element is in the sorted list exactly when it is in the input |
| StableSort.TopDominatesRest | backend/src/domain/services/PersonalityCalculator.ts:62-63 | every element kept out of the first `k` of the sorted list scores no higher than each of those `k` |
| StableSort.MaxFirst | backend/src/domain/services/PersonalityCalculator.ts:62-63 | the sorted list starts with the elements carrying the maximum key, in their input order |
| StableSort.SortDistinct | backend/src/domain/services/PersonalityCalculator.ts:62 | sorting elements with distinct identities keeps them distinct |
| StableSort.SortMap | backend/src/infrastructure/algorithms/LifeAllocationAlgorithm.ts:73-80 | relabelling elements without changing their keys commutes with the sort, so labelling before or after sorting gives the same list |
| StableSort.SumOfSort | backend/src/domain/services/LifeAllocationCalculator.ts:41-52 | sorting leaves a sum over the elements unchanged |
| StableSort.SumOfPermutation | backend/src/domain/valueObjects/LifeAllocation.ts:100 | any permutation leaves a sum over the elements unchanged |
| StableSort.InsertIntoPrefix | backend/src/domain/services/PersonalityCalculator.ts:62 | one step of the in-place sort: the element at `i` moves down past the smaller-keyed elements before it, which shift up, and nothing after `i` changes |
| StableSort.SortInPlace | backend/src/domain/services/PersonalityCalculator.ts:62 | the in-place array sort leaves the array equal to `Sort` of its old contents |
| PersonalityCalculator.Index | backend/src/domain/services/PersonalityCalculator.ts:8-19 | each of the eleven axis keys has a position in the declared order |
| PersonalityCalculator.KeyAt | backend/src/domain/services/PersonalityCalculator.ts:8-19 | the key at a position, inverse of `Index` |
| PersonalityCalculator.KeyName | backend/src/domain/services/PersonalityCalculator.ts:8-19 | each key's name is non-empty and starts with a lower-case letter |
| PersonalityCalculator.KeyNameInjective | backend/src/domain/services/PersonalityCalculator.ts:8-19 | different keys have different names |
| PersonalityCalculator.Score | backend/src/domain/services/PersonalityCalculator.ts:47-59 | each axis score lies in 0..100 |
| PersonalityCalculator.Axes | backend/src/domain/services/PersonalityCalculator.ts:47-59 | eleven axis scores in the declared key order, each the weighted flag times 100 |
| PersonalityCalculator.AxesDistinct | backend/src/domain/services/PersonalityCalculator.ts:47-59 | the axis list names each key once |
| PersonalityCalculator.Calculate | backend/src/domain/services/PersonalityCalculator.ts:44-69 | `calculatePersonalityScores` returns all axes unchanged and exactly three top axes |
| PersonalityCalculator.CalculateScores | backend/src/domain/services/PersonalityCalculator.ts:44-69 | the copy-sort-slice computation on an array gives `Calculate` |
| PersonalityCalculator.Top3Properties | backend/src/domain/services/PersonalityCalculator.ts:61-63 | the top three are in descending order, are three different axes from the full list, and no axis left out scores higher than any of them |
| PersonalityCalculator.Top3OfMax | backend/src/domain/services/PersonalityCalculator.ts:61-63 | when three or more axes share the maximum score, the top three are the first three of them in declared order |
| PersonalityCalculator.EnfjFareTop3 | backend/src/domain/services/PersonalityCalculator.ts:44-69 | ENFJ with FARE: extraversion, feeling and structure, each 100 |
| PersonalityCalculator.IntjLcroTop3 | backend/src/domain/services/PersonalityCalculator.ts:44-69 | INTJ with LCRO: introversion depth, thinking and structure, each 100 |
| PersonalityCalculator.Top3OfFlags | backend/src/domain/services/PersonalityCalculator.ts:61-63 | when exactly three of the first seven axes score 100, they are the top three |
| PopularityCalculator.Min | backend/src/domain/services/PopularityCalculator.ts:49-51 | `Math.min` is the smaller argument |
| PopularityCalculator.RawChance | backend/src/domain/services/PopularityCalculator.ts:26-31 | the chance sum of weighted flags lies in 0..1 |
| PopularityCalculator.RawFirst | backend/src/domain/services/PopularityCalculator.ts:34-39 | the first-impression sum lies in 0..1 |
| PopularityCalculator.RawLasting | backend/src/domain/services/PopularityCalculator.ts:42-47 | the lasting-likeability sum lies in 0..1 |
| PopularityCalculator.Calculate | backend/src/domain/services/PopularityCalculator.ts:22-62 | each sub-score is its raw sum times 100 (the `Math.min(100, …)` clamp never bites), all lie in 0..100, and the total is their mean |
| PopularityCalculator.TotalBetween | backend/src/domain/services/PopularityCalculator.ts:54 | the mean lies between the smallest and the largest sub-score |
| PopularityCalculator.EnfjFare | backend/src/domain/services/PopularityCalculator.ts:22-62 | ENFJ with FARE scores 50, 60 and 90, total 200/3 |
| PopularityCalculator.IntjLcro | backend/src/domain/services/PopularityCalculator.ts:22-62 | INTJ with LCRO scores 50, 30 and 50, total 130/3 |
| PopularityCalculator.IstpFapo | backend/src/domain/services/PopularityCalculator.ts:22-62 | ISTP with FAPO scores 30, 20 and 10, total 20 |
| CompatibilityCalculator.Similarity | backend/src/domain/services/CompatibilityCalculator.ts:59-65 | the number of shared similarity axes lies in 0..6 |
| CompatibilityCalculator.Complement | backend/src/domain/services/CompatibilityCalculator.ts:67 | the number of differing complement axes lies in 0..2 |
| CompatibilityCalculator.Raw | backend/src/domain/services/CompatibilityCalculator.ts:46-54 | the weighted sum of the eight indicators lies in 0..1 |
| CompatibilityCalculator.Flavor | backend/src/domain/services/CompatibilityCalculator.ts:69-78 | soulmate exactly when four or more axes are shared; partner exactly when fewer and both complement axes differ; hybrid exactly when neither of those and at least two shared with one differing; magnet otherwise |
| CompatibilityCalculator.Calculate | backend/src/domain/services/CompatibilityCalculator.ts:26-84 | the score is the weighted sum times 100, within 0..100 (the clamp never bites), and the flavour follows the rules on the two counts |
| CompatibilityCalculator.Symmetric | backend/src/domain/services/CompatibilityCalculator.ts:26-84 | the score and flavour of a pair do not depend on which side is `self` |
| CompatibilityCalculator.SelfCompatibility | backend/src/domain/services/CompatibilityCalculator.ts:26-84 | any profile paired with itself scores 80 as soulmates: complements never differ |
| CompatibilityCalculator.FullScoreIff | backend/src/domain/services/CompatibilityCalculator.ts:46-56 | the score is 100 exactly when all six similarity axes are shared and both complement axes differ |
| CompatibilityCalculator.RawFull | backend/src/domain/services/CompatibilityCalculator.ts:46-54 | the weighted sum is 1 exactly when every indicator is set |
| CompatibilityCalculator.SoulmateScoreFloor | backend/src/domain/services/CompatibilityCalculator.ts:46-71 | soulmates score at least 44 |
| CompatibilityCalculator.PartnerScoreFloor | backend/src/domain/services/CompatibilityCalculator.ts:46-73 | partners score at least 20 |
| CompatibilityCalculator.MagnetShape | backend/src/domain/services/CompatibilityCalculator.ts:69-78 | magnets share at most three axes and differ on at most one complement axis, on none when they share two or three |
| CompatibilityCalculator.InfjLcroSelf | backend/src/domain/services/CompatibilityCalculator.ts:26-84 | INFJ/LCRO with itself: 80, soulmate |
| CompatibilityCalculator.IntjLcroEsfpFape | backend/src/domain/services/CompatibilityCalculator.ts:26-84 | INTJ/LCRO with ESFP/FAPE: 20, partner |
| CompatibilityCalculator.InfjLcroEsfpFcro | backend/src/domain/services/CompatibilityCalculator.ts:26-84 | INFJ/LCRO with ESFP/FCRO: hybrid |
| CompatibilityCalculator.IntjLcroEsfpLcpe | backend/src/domain/services/CompatibilityCalculator.ts:26-84 | INTJ/LCRO with ESFP/LCPE: 0, magnet |
| CompatibilityCalculator.IntjLcroIntjFape | backend/src/domain/services/CompatibilityCalculator.ts:26-84 | INTJ/LCRO with INTJ/FAPE: 80, soulmate |
| LoveLanguageCalculator.Index | backend/src/domain/services/LoveLanguageCalculator.ts:8 | each of the five love-language keys has a position in the declared order |
| LoveLanguageCalculator.KeyAt | backend/src/domain/services/LoveLanguageCalculator.ts:8 | the key at a position, inverse of `Index` |
| LoveLanguageCalculator.KeyName | backend/src/domain/services/LoveLanguageCalculator.ts:8 | each key's name is non-empty and starts with a lower-case letter |
| LoveLanguageCalculator.KeyNameInjective | backend/src/domain/services/LoveLanguageCalculator.ts:8 | different keys have different names |
| LoveLanguageCalculator.Raw | backend/src/domain/services/LoveLanguageCalculator.ts:36-40 | each weighted sum lies in 0..1 |
| LoveLanguageCalculator.Score | backend/src/domain/services/LoveLanguageCalculator.ts:42-46 | each score is its raw sum times 100 (the `Math.min(100, …)` clamp never bites) and lies in 0..100 |
| LoveLanguageCalculator.Initial | backend/src/domain/services/LoveLanguageCalculator.ts:48-54 | the five items in declared key order with their scores and rank 0 |
| LoveLanguageCalculator.WithRanks | backend/src/domain/services/LoveLanguageCalculator.ts:58-60 | the `forEach` numbering: item `i` gets rank `i + 1` and nothing else changes |
| LoveLanguageCalculator.Calculate | backend/src/domain/services/LoveLanguageCalculator.ts:33-63 | `calculateLoveLanguageScores` returns five items |
| LoveLanguageCalculator.CalculateScores | backend/src/domain/services/LoveLanguageCalculator.ts:48-62 | sorting the item array in place and numbering it in a loop gives `Calculate` |
| LoveLanguageCalculator.RankedInOrder | backend/src/domain/services/LoveLanguageCalculator.ts:56-60 | the items are in descending order of score and ranked 1 to 5 by position |
| LoveLanguageCalculator.EachKeyOnce | backend/src/domain/services/LoveLanguageCalculator.ts:48-60 | every love language appears exactly once, carrying its own score |
| LoveLanguageCalculator.InitialDistinct | backend/src/domain/services/LoveLanguageCalculator.ts:48-54 | the initial list names each key once |
| LoveLanguageCalculator.TiesKeepListedOrder | backend/src/domain/services/LoveLanguageCalculator.ts:57 | items with equal scores keep their declared order |
| LoveLanguageCalculator.EnfjFare | backend/src/domain/services/LoveLanguageCalculator.ts:33-63 | ENFJ with FARE: words 100, gifts 100, service 65, time 55, touch 55, ranked 1 to 5 |
| LoveLanguageCalculator.IntjLcro | backend/src/domain/services/LoveLanguageCalculator.ts:33-63 | INTJ with LCRO: the five items written out, ranked 1 to 5 |
| LifeAllocationCalculator.Index | backend/src/domain/services/LifeAllocationCalculator.ts:8 | each of the five categories has a position in the declared order |
| LifeAllocationCalculator.KeyAt | backend/src/domain/services/LifeAllocationCalculator.ts:8 | the category at a position, inverse of `Index` |
| LifeAllocationCalculator.KeyName | backend/src/domain/services/LifeAllocationCalculator.ts:8 | each category's name is non-empty and starts with a lower-case letter |
| LifeAllocationCalculator.KeyNameInjective | backend/src/domain/services/LifeAllocationCalculator.ts:8 | different categories have different names |
| LifeAllocationCalculator.RawsOf | backend/src/domain/services/LifeAllocationCalculator.ts:35-39 | the five weighted sums each lie in 0..1 |
| LifeAllocationCalculator.LegalTotalPositive | backend/src/domain/services/LifeAllocationCalculator.ts:41 | for legal flags `sumRaw` is at least 0.35, so the divisions never divide by zero |
| LifeAllocationCalculator.Percent | backend/src/domain/services/LifeAllocationCalculator.ts:44-48 | `(raw / sumRaw) * 100` lies in 0..100 |
| LifeAllocationCalculator.Share | backend/src/domain/services/LifeAllocationCalculator.ts:44-48 | a part of a non-zero total divided by it lies in 0..1 |
| LifeAllocationCalculator.Items | backend/src/domain/services/LifeAllocationCalculator.ts:43-49 | the five items in declared category order, each with its percentage |
| LifeAllocationCalculator.Sorted | backend/src/domain/services/LifeAllocationCalculator.ts:52 | sorting keeps five items |
| LifeAllocationCalculator.Calculate | backend/src/domain/services/LifeAllocationCalculator.ts:32-55 | `calculateLifeAllocationScores` returns five items, for flags whose sums do not add up to zero |
| LifeAllocationCalculator.CalculateScores | backend/src/domain/services/LifeAllocationCalculator.ts:32-55 | the computation with an in-place array sort gives `Calculate` |
| LifeAllocationCalculator.SortItems | backend/src/domain/services/LifeAllocationCalculator.ts:43-52 | building the item array and sorting it in place gives `Sorted` |
| LifeAllocationCalculator.SumIsHundred | backend/src/domain/services/LifeAllocationCalculator.ts:41-52 | the five percentages add up to exactly 100 |
| LifeAllocationCalculator.SharesAddUp | backend/src/domain/services/LifeAllocationCalculator.ts:41-48 | five shares of their own total add up to 1 |
| LifeAllocationCalculator.InOrder | backend/src/domain/services/LifeAllocationCalculator.ts:52 | the items are in descending order of percentage |
| LifeAllocationCalculator.EachKeyOnce | backend/src/domain/services/LifeAllocationCalculator.ts:43-52 | every category appears exactly once, carrying its own percentage |
| LifeAllocationCalculator.ItemsDistinct | backend/src/domain/services/LifeAllocationCalculator.ts:43-49 | the unsorted list names each category once |
| LifeAllocationCalculator.TiesKeepListedOrder | backend/src/domain/services/LifeAllocationCalculator.ts:52 | categories with equal percentages keep their declared order |
| LifeAllocationCalculator.OrderOfRaw | backend/src/domain/services/LifeAllocationCalculator.ts:41-52 | percentages compare exactly as the raw sums do, so the sort orders by raw sum |
| LifeAllocationCalculator.ShareMonotone | backend/src/domain/services/LifeAllocationCalculator.ts:44-48 | dividing by the same positive total keeps the order |
| LifeAllocationCalculator.EnfjFare | backend/src/domain/services/LifeAllocationCalculator.ts:32-55 | ENFJ with FARE: the raw sums and the five sorted percentages written out, family first |
| LifeAllocationCalculator.IntjLcro | backend/src/domain/services/LifeAllocationCalculator.ts:32-55 | INTJ with LCRO: the raw sums and the five sorted percentages written out, work first |
| Attractiveness.ValidateScores | backend/src/domain/valueObjects/Attractiveness.ts:67-124 | `validateScores` passes exactly when all four scores lie in 0..100, and otherwise names the first score, in check order, that does not |
| Attractiveness.ValidateLevels | backend/src/domain/valueObjects/Attractiveness.ts:87-99 | `validateLevels` passes exactly when all three levels are among S1..S10, and otherwise names the first that is not |
| Attractiveness.ValidateTexts | backend/src/domain/valueObjects/Attractiveness.ts:104-117 | `validateTexts` passes exactly when no text is missing or blank after trimming, and otherwise names the first that is |
| Attractiveness.Create | backend/src/domain/valueObjects/Attractiveness.ts:47-62 | `createAttractiveness` succeeds exactly when every field is valid, returning the three groups unchanged; on failure it names the first invalid field, scores before levels before texts |
| Attractiveness.GetScoreLevel | backend/src/domain/valueObjects/Attractiveness.ts:129-135 | `getScoreLevel` has its own threshold chain, and it equals `toS5` on every score |
| Attractiveness.GetScoreLevelMonotone | backend/src/domain/valueObjects/Attractiveness.ts:129-135 | a higher score never gets a lower level |
| PersonalityAxis.CreateItem | backend/src/domain/valueObjects/PersonalityAxis.ts:28-64 | `createPersonalityVectorItem` fails on the first failing check, in order: blank key, blank label, score outside 0..100, level outside S1..S5, blank text; otherwise it stores key, label and text trimmed |
| PersonalityAxis.CreateItemIdempotent | backend/src/domain/valueObjects/PersonalityAxis.ts:28-64 | an accepted item, rebuilt from its own fields, is accepted again unchanged |
| PersonalityAxis.CreateAxis | backend/src/domain/valueObjects/PersonalityAxis.ts:69-93 | `createPersonalityAxis` succeeds exactly when there are three top items, at least one axis and the top three do not increase, keeping both lists; a wrong count and an empty list are reported first |
| PersonalityAxis.AcceptedTop3Ordered | backend/src/domain/valueObjects/PersonalityAxis.ts:82-87 | checking neighbours is enough: an accepted top three is ordered across all pairs |
| PersonalityAxis.AxisKeysMatchCalculator | backend/src/domain/valueObjects/PersonalityAxis.ts:98-110 | `PERSONALITY_AXIS_KEYS` names the calculator's eleven axes in the calculator's order, all different |
| Compatibility.MatchOk | backend/src/domain/valueObjects/Compatibility.ts:87-157 | a match every validator accepts: partner codes of length four whose letters are not looked at, a score in 0..100, a level among S1..S10 and a description that is not blank |
| Compatibility.ValidateMatch | backend/src/domain/valueObjects/Compatibility.ts:87-157 | the partner, score, level and description checks run in the source's order; the match passes exactly when both codes have length four, the score is in 0..100, the level is S1..S10 and the description is not blank, and each error names the first check that fails |
| Compatibility.CreateMatch | backend/src/domain/valueObjects/Compatibility.ts:44-65 | `createCompatibilityMatch` returns the given fields unchanged exactly when the match is valid; otherwise it returns the first validator's error |
| Compatibility.FirstInvalidMatch | backend/src/domain/valueObjects/Compatibility.ts:181-193 | the `forEach` over the best matches passes exactly when every match from the given index on is valid; otherwise it reports the lowest invalid index with that match's own error |
| Compatibility.Create | backend/src/domain/valueObjects/Compatibility.ts:70-82 | `createCompatibility` succeeds exactly when the list is non-empty, every match is valid and the summary is not blank, and returns both unchanged; an empty list and the first invalid index are reported before the summary |
| Compatibility.RelationFlavorLabel | backend/src/domain/valueObjects/Compatibility.ts:199-207 | every flavour has a non-empty Japanese label |
| Compatibility.RelationFlavorLabelInjective | backend/src/domain/valueObjects/Compatibility.ts:199-207 | different flavours get different labels |
| CompatibilityAlgorithm.CalcCompatScore | backend/src/application/services/CompatibilityAlgorithm.ts:24-26 | `calcCompatScore` is the calculator's score: the similarity raw of the two flag sets times 100, between 0 and 100 |
| CompatibilityAlgorithm.CalcRelationFlavor | backend/src/application/services/CompatibilityAlgorithm.ts:32-37 | `calcRelationFlavor` is the calculator's flavour for the similarity and complementarity of the two flag sets |
| CompatibilityAlgorithm.Description | backend/src/application/services/CompatibilityAlgorithm.ts:43-52 | `getCompatibilityDescription` returns the matrix entry for flavour and level when there is a non-empty one, otherwise the fallback sentence, so it is never empty |
| CompatibilityAlgorithm.DescriptionNotBlank | backend/src/application/services/CompatibilityAlgorithm.ts:43-52 | with a matrix whose entries are not blank, the description is not blank either, so `validateDescription` cannot reject it |
| CompatibilityAlgorithm.BuildDescription | backend/src/application/services/CompatibilityAlgorithm.ts:58-68 | `buildCompatibilityDescription` of a finished match is the same lookup for its own flavour and level |
| CompatibilityAlgorithm.BuildMatch | backend/src/application/services/CompatibilityAlgorithm.ts:74-94 | `buildCompatibilityMatch` names the given partner; with a matrix of non-blank entries it is accepted exactly when both partner codes have four characters |
| CompatibilityAlgorithm.BuildMatchFields | backend/src/application/services/CompatibilityAlgorithm.ts:80-93 | an accepted match carries the calculator's score and flavour for the two codes' flags, the ten-step level of that score and the description for that flavour and level |
| CompatibilityAlgorithm.BuildMatchSymmetric | backend/src/application/services/CompatibilityAlgorithm.ts:80-86 | swapping self and partner leaves the score, level and flavour of the match unchanged |
| CompatibilityAlgorithm.MapAll | backend/src/application/services/CompatibilityAlgorithm.ts:106-108 | mapping with a callback that may throw yields every result in order exactly when every call succeeds, and otherwise the error of the first element whose call fails, every element before it having succeeded |
| CompatibilityAlgorithm.BuildMatches | backend/src/application/services/CompatibilityAlgorithm.ts:106-108 | the `bestPartners.map` of `buildCompatibilityMatch`: one match per partner in order, or the error of the first partner it rejects (by `MapAll`) |
| CompatibilityAlgorithm.MaxCount | backend/src/application/services/CompatibilityAlgorithm.ts:125-141 | the largest of the four flavour counts is one of them and bounds all of them |
| CompatibilityAlgorithm.Dominant | backend/src/application/services/CompatibilityAlgorithm.ts:134-141 | the dominant flavour: the first of soulmate, partner, hybrid, magnet whose count is the maximum, and hybrid when no match was counted; its properties are `DominantIsMostFrequent` |
| CompatibilityAlgorithm.DominantIsMostFrequent | backend/src/application/services/CompatibilityAlgorithm.ts:134-141 | the dominant flavour occurs at least as often as any other and strictly more often than every flavour listed before it; with no matches it is hybrid |
| CompatibilityAlgorithm.CountFlavors | backend/src/application/services/CompatibilityAlgorithm.ts:123-132 | the first loop leaves, for every flavour, the number of matches that have it |
| CompatibilityAlgorithm.DominantOfCounts | backend/src/application/services/CompatibilityAlgorithm.ts:134-141 | whatever the keep-the-first-strictly-larger walk leaves behind is the dominant flavour |
| CompatibilityAlgorithm.GenerateSummary | backend/src/application/services/CompatibilityAlgorithm.ts:120-144 | `generateCompatibilitySummary` returns the summary of the dominant flavour of the matches |
| CompatibilityAlgorithm.BuildResult | backend/src/application/services/CompatibilityAlgorithm.ts:100-114 | an accepted `buildCompatibilityResult` has one match per partner, in the partners' order, naming that partner, and the summary of their dominant flavour |
| CompatibilityAlgorithm.BuildResultEmpty | backend/src/application/services/CompatibilityAlgorithm.ts:100-114 | the result is rejected for having no matches exactly when there are no partners |
| CompatibilityAlgorithm.BuildResultRejectsCodes | backend/src/application/services/CompatibilityAlgorithm.ts:106-108 | with non-blank descriptions, mapping the partners throws exactly when some partner code does not have four characters |
| CompatibilityAlgorithm.BuildResultAccepts | backend/src/application/services/CompatibilityAlgorithm.ts:100-114 | with non-blank descriptions and summaries, the result is accepted exactly when there is a partner and every partner code has four characters |
| LoveLanguage.KeysMatchCalculator | backend/src/domain/valueObjects/LoveLanguage.ts:9-15 | `LOVE_LANGUAGE_KEYS` spells the calculator's five keys in the calculator's order, all different |
| LoveLanguage.Label | backend/src/domain/valueObjects/LoveLanguage.ts:126-132 | every key has a non-empty label |
| LoveLanguage.LabelInjective | backend/src/domain/valueObjects/LoveLanguage.ts:126-132 | different keys get different labels |
| LoveLanguage.CreateItem | backend/src/domain/valueObjects/LoveLanguage.ts:42-84 | `createLoveLanguageItem` fails on the first failing check, in order: blank label, score outside 0..100, level outside S1..S5, rank outside 1..5, blank text; otherwise it stores label and text trimmed and the rest as given |
| LoveLanguage.CreateItemIdempotent | backend/src/domain/valueObjects/LoveLanguage.ts:42-84 | an accepted item, rebuilt from its own fields, is accepted again unchanged |
| LoveLanguage.FirstMissingKey | backend/src/domain/valueObjects/LoveLanguage.ts:99-104 | the walk over the key list passes exactly when every key from the given position on is carried by some item, and otherwise names the first key no item carries |
| LoveLanguage.RanksOk | backend/src/domain/valueObjects/LoveLanguage.ts:106-111 | the rank check: the ranks, sorted, are exactly 1, 2, 3, 4, 5 |
| LoveLanguage.Create | backend/src/domain/valueObjects/LoveLanguage.ts:89-121 | `createLoveLanguage` succeeds exactly when there are five items, every key occurs, the sorted ranks are 1..5 and the summary is not blank; it returns the items as given and the summary trimmed, and each error names the first check that fails |
| LoveLanguage.RanksOkIffPermutation | backend/src/domain/valueObjects/LoveLanguage.ts:107-111 | the rank check accepts exactly when the ranks are 1, 2, 3, 4, 5 in some order |
| LoveLanguage.OneToFiveInOrder | backend/src/domain/valueObjects/LoveLanguage.ts:107-111 | the only ascending arrangement of 1..5 is 1, 2, 3, 4, 5 |
| LoveLanguage.FiveKeysOnce | backend/src/domain/valueObjects/LoveLanguage.ts:94-104 | five items that carry all five keys carry each key exactly once |
| LifeAllocation.KeysMatchCalculator | backend/src/domain/valueObjects/LifeAllocation.ts:9-15 | `LIFE_ALLOCATION_KEYS` spells the calculator's five categories in the calculator's order, all different |
| LifeAllocation.Label | backend/src/domain/valueObjects/LifeAllocation.ts:118-124 | every category has a non-empty label |
| LifeAllocation.LabelInjective | backend/src/domain/valueObjects/LifeAllocation.ts:118-124 | different categories get different labels |
| LifeAllocation.CreateItem | backend/src/domain/valueObjects/LifeAllocation.ts:41-77 | `createLifeItem` fails on the first failing check, in order: blank label, percent outside 0..100, level outside S1..S5, blank text; otherwise it stores label and text trimmed and the rest as given |
| LifeAllocation.CreateItemIdempotent | backend/src/domain/valueObjects/LifeAllocation.ts:41-77 | an accepted item, rebuilt from its own fields, is accepted again unchanged |
| LifeAllocation.FirstMissingKey | backend/src/domain/valueObjects/LifeAllocation.ts:92-97 | the walk over the key list passes exactly when every category from the given position on is carried by some item, and otherwise names the first category no item carries |
| LifeAllocation.TotalOk | backend/src/domain/valueObjects/LifeAllocation.ts:99-103 | the sum check: the percentages add up to 100 within one point either way |
| LifeAllocation.Create | backend/src/domain/valueObjects/LifeAllocation.ts:82-113 | `createLifeAllocation` succeeds exactly when there are five items, every category occurs, the percentages add up to 100 within one point and the summary is not blank; it returns the items as given and the summary trimmed, and each error names the first check that fails |
| LifeAllocation.CreateIgnoresOrder | backend/src/domain/valueObjects/LifeAllocation.ts:87-103 | any rearrangement of the items is accepted exactly when the original is |
| LifeAllocation.FiveKeysOnce | backend/src/domain/valueObjects/LifeAllocation.ts:87-97 | five items that carry all five categories carry each exactly once |
| PersonalityVectorService.AxisLabel | backend/src/application/services/PersonalityVectorService.ts:14-26 | every axis has a non-empty label |
| PersonalityVectorService.ToItem | backend/src/application/services/PersonalityVectorService.ts:35-44 | an item keeps the axis name and score, takes the axis label, the five-step level of the score and the text for that axis and level |
| PersonalityVectorService.ToItems | backend/src/application/services/PersonalityVectorService.ts:35-55 | the `map` over a list of axis scores gives one item per score, in order |
| PersonalityVectorService.Assemble | backend/src/application/services/PersonalityVectorService.ts:35-57 | both calculator lists mapped to items, then checked by `createPersonalityAxis`; `AssembleAccepted` states when it succeeds |
| PersonalityVectorService.CalcPersonalityVector | backend/src/application/services/PersonalityVectorService.ts:31-58 | `calcPersonalityVector`: the calculator's scores for the flags, assembled; `VectorProperties` states that it never throws and what it holds |
| PersonalityVectorService.AssembleAccepted | backend/src/application/services/PersonalityVectorService.ts:46-57 | three descending top scores taken from a non-empty list of axes are accepted by `createPersonalityAxis` once turned into items, and the top items stay among all the items |
| PersonalityVectorService.VectorProperties | backend/src/application/services/PersonalityVectorService.ts:31-58 | `calcPersonalityVector` never throws: all axes are the calculator's axes as items in declared order, the top three are the calculator's top three as items, drawn from all axes and in descending order of score |
| PopularityService.Scores | backend/src/application/services/PopularityService.ts:23-27 | `calcAttractivenessScores` gives each sub-score as its raw sum times 100 and the total as their mean, every score passing the value object's 0..100 check |
| PopularityService.Levels | backend/src/application/services/PopularityService.ts:33-35 | the ten-step level of each sub-score is one the value object accepts |
| PopularityService.Texts | backend/src/application/services/PopularityService.ts:37-57 | the texts are the table entries for the three levels, and the summary joins them behind the three fixed openings, so it is never blank |
| PopularityService.Build | backend/src/application/services/PopularityService.ts:30-60 | `buildAttractivenessResult` carries the calculator's scores, their levels and texts; it is accepted exactly when the three looked-up texts are not blank (always, when the tables cover every level), and otherwise fails on a level text, never on the summary |
| PopularityService.EnfjFareLevels | backend/src/application/services/PopularityService.ts:30-60 | ENFJ with FARE gets levels S6, S7 and S10 |
| PopularityService.IstpFapoLevels | backend/src/application/services/PopularityService.ts:30-60 | ISTP with FAPO gets levels S4, S3 and S2 and total 20 |
| LoveLanguageService.ToItem | backend/src/application/services/LoveLanguageService.ts:21-31 | an item keeps the score's key, score and rank, takes the key's label, a five-step level and the table's text for key and level |
| LoveLanguageService.Summary | backend/src/application/services/LoveLanguageService.ts:37-39 | the summary sentence names the two labels and begins and ends with a visible character, so trimming leaves it unchanged |
| LoveLanguageService.Items | backend/src/application/services/LoveLanguageService.ts:21-31 | the `map` gives one item per calculator score, in the calculator's order |
| LoveLanguageService.Assemble | backend/src/application/services/LoveLanguageService.ts:21-41 | the items mapped from the scores and the summary naming the first two labels, checked by `createLoveLanguage`; `AssembleAccepted` states when it succeeds |
| LoveLanguageService.CalcLoveLanguages | backend/src/application/services/LoveLanguageService.ts:17-42 | `calcLoveLanguages`: the calculator's ranked scores for the flags, assembled; `CalcLoveLanguagesAccepted` and `ItemsOfProfile` state what it yields |
| LoveLanguageService.AssembleAccepted | backend/src/application/services/LoveLanguageService.ts:17-42 | five scores carrying every key and ranked 1..5 by position are accepted by `createLoveLanguage` whatever the text table holds, with the items as mapped and the summary naming the first two labels |
| LoveLanguageService.ItemsAccepted | backend/src/application/services/LoveLanguageService.ts:21-41 | items that copy those keys and ranks pass the key and rank checks |
| LoveLanguageService.RanksInOrder | backend/src/application/services/LoveLanguageService.ts:21-41 | items ranked 1..5 by position pass the rank check |
| LoveLanguageService.CalcLoveLanguagesAccepted | backend/src/application/services/LoveLanguageService.ts:17-42 | `calcLoveLanguages` never throws, for any profile and any text table |
| LoveLanguageService.ItemsOfProfile | backend/src/application/services/LoveLanguageService.ts:17-31 | the items of any profile are ranked 1..5 in descending order of score, carry every love language once with its own score, the five-step level of that score, its label and the table's text |
| LifeAllocationService.ToItem | backend/src/application/services/LifeAllocationAlgorithm.ts:21-30 | an item keeps the score's category and percentage, takes the category's label, the five-step level of the percentage and the table's text for category and level |
| LifeAllocationService.Summary | backend/src/application/services/LifeAllocationAlgorithm.ts:36-38 | the summary sentence names the two labels and begins and ends with a visible character, so trimming leaves it unchanged |
| LifeAllocationService.Items | backend/src/application/services/LifeAllocationAlgorithm.ts:21-30 | the `map` gives one item per calculator score, in the calculator's order |
| LifeAllocationService.Assemble | backend/src/application/services/LifeAllocationAlgorithm.ts:21-40 | the items mapped from the scores and the summary naming the first two labels, checked by `createLifeAllocation`; `AssembleAccepted` states when it succeeds |
| LifeAllocationService.CalcLifeAllocation | backend/src/application/services/LifeAllocationAlgorithm.ts:17-41 | `calcLifeAllocation`: the calculator's sorted percentages for the flags, assembled; `CalcLifeAllocationAccepted` and `ItemsOfProfile` state what it yields |
| LifeAllocationService.AssembleAccepted | backend/src/application/services/LifeAllocationAlgorithm.ts:17-41 | five scores carrying every category whose percentages add up to 100 within one point are accepted by `createLifeAllocation` whatever the text table holds, with the items as mapped and the summary naming the first two labels |
| LifeAllocationService.CalcLifeAllocationAccepted | backend/src/application/services/LifeAllocationAlgorithm.ts:17-41 | `calcLifeAllocation` never throws for a profile whose raw weights do not add up to zero, whatever the text table holds |
| LifeAllocationService.ItemsOfProfile | backend/src/application/services/LifeAllocationAlgorithm.ts:17-30 | the items of such a profile are in descending order of percentage and carry every category once with its own percentage, the five-step level of that percentage, its label and the table's text |
| LifeAllocationService.ItemsOfRaws | backend/src/application/services/LifeAllocationAlgorithm.ts:21-30 | the same for any weighted sums whose total is not zero |
| LifeAllocationService.ItemsKeepKeys | backend/src/application/services/LifeAllocationAlgorithm.ts:21-30 | items made from scores carrying every category carry every category |
| DiagnosisResult.Create | backend/src/domain/entities/DiagnosisResult.ts:36-46 | `createDiagnosisResult` keeps the two codes and the results as given |
| DiagnosisResult.Validate | backend/src/domain/entities/DiagnosisResult.ts:51-71 | `validateDiagnosisResult` passes exactly when both codes have four characters and the results hold an attractiveness and a personality axis; each error names the first of those checks that fails |
| DiagnosisResult.ValidateIgnoresOtherResults | backend/src/domain/entities/DiagnosisResult.ts:51-71 | validation depends only on the code lengths and on whether the results, the attractiveness and the personality axis are present |
| DiagnosisResult.CreatedValid | backend/src/domain/entities/DiagnosisResult.ts:36-71 | a created result holding both required parts passes validation exactly when both codes have four characters |
| DiagnosisRequestDto.Accepted | backend/src/application/dto/DiagnosisRequestDTO.ts:21-41 | every check passes: the body is an object (an array included) whose `mbti` and `loveType` are strings of four characters |
| DiagnosisRequestDto.Validate | backend/src/application/dto/DiagnosisRequestDTO.ts:18-44 | `validateDiagnosisRequest` accepts exactly an object (arrays included) whose `mbti` and `loveType` are strings of four characters, yielding those two strings; each error names the first check that fails |
| DiagnosisRequestDto.AnyFourLettersAccepted | backend/src/application/dto/DiagnosisRequestDTO.ts:27-43 | the letters are not checked: any two four-character strings are accepted, whatever other fields the body has |
| DiagnosisRequestDto.ArrayRejectedOnMbti | backend/src/application/dto/DiagnosisRequestDTO.ts:21-30 | an array passes the object check and then fails on `mbti` |
| DiagnosisUseCase.Pairs | backend/src/application/usecases/CreateDiagnosisUseCase.ts:137-143 | the nested loops yield 256 pairs |
| DiagnosisUseCase.PairAt | backend/src/application/usecases/CreateDiagnosisUseCase.ts:139-143 | pair `16 * m + l` is personality code `m` with love type `l` |
| DiagnosisUseCase.PairsMembers | backend/src/application/usecases/CreateDiagnosisUseCase.ts:139-143 | a pair is generated exactly when its personality code is in the first list and its love type in the second |
| DiagnosisUseCase.PairsDistinct | backend/src/application/usecases/CreateDiagnosisUseCase.ts:139-143 | lists without repeats give 256 different pairs |
| DiagnosisUseCase.PushPairs | backend/src/application/usecases/CreateDiagnosisUseCase.ts:137-145 | the nested `push` loops build exactly the personality-major list of pairs |
| DiagnosisUseCase.AllCombinations | backend/src/application/usecases/CreateDiagnosisUseCase.ts:95-146 | the generated list has 256 pairs |
| DiagnosisUseCase.OrdersListed | backend/src/application/usecases/CreateDiagnosisUseCase.ts:99-135 | the two literal lists hold exactly the valid personality codes and the valid love types |
| DiagnosisUseCase.OrdersDistinct | backend/src/application/usecases/CreateDiagnosisUseCase.ts:99-135 | neither literal list repeats a code |
| DiagnosisUseCase.CombinationsListed | backend/src/application/usecases/CreateDiagnosisUseCase.ts:95-146 | the generated pairs are all 256 pairs of valid codes, each exactly once, starting with ENFP/LCPO and ending with ISTJ/FARE |
| DiagnosisUseCase.GenerateAllCombinations | backend/src/application/usecases/CreateDiagnosisUseCase.ts:95-146 | `generateAllCombinations` returns that list |
| DiagnosisUseCase.WithScore | backend/src/application/usecases/CreateDiagnosisUseCase.ts:75-79 | a scored candidate keeps the pair and carries its compatibility score with the profile |
| DiagnosisUseCase.Scored | backend/src/application/usecases/CreateDiagnosisUseCase.ts:75-79 | the `map` scores every candidate, keeping their order |
| DiagnosisUseCase.BestOf | backend/src/application/usecases/CreateDiagnosisUseCase.ts:81-89 | the first three candidates of the descending sort, without scores, are three pairs |
| DiagnosisUseCase.BestPartners | backend/src/application/usecases/CreateDiagnosisUseCase.ts:67-90 | the search over all generated pairs yields three pairs |
| DiagnosisUseCase.SortedFromCandidates | backend/src/application/usecases/CreateDiagnosisUseCase.ts:81-82 | each position of the sorted list holds a candidate with its own score |
| DiagnosisUseCase.BestOfProperties | backend/src/application/usecases/CreateDiagnosisUseCase.ts:81-89 | over distinct candidates the best three are three different candidates in non-increasing order of score, and no candidate left out scores higher than any of them |
| DiagnosisUseCase.BestOfDominates | backend/src/application/usecases/CreateDiagnosisUseCase.ts:81-89 | no candidate left out scores higher than a chosen one |
| DiagnosisUseCase.BestOfUniqueMax | backend/src/application/usecases/CreateDiagnosisUseCase.ts:81-89 | a candidate that alone reaches the top score comes first |
| DiagnosisUseCase.BestPartnersProperties | backend/src/application/usecases/CreateDiagnosisUseCase.ts:67-90 | `calculateBestPartners` returns three different pairs of valid codes in non-increasing order of score, and no valid pair left out scores higher than any of them |
| DiagnosisUseCase.FlipLeadCuddle | backend/src/application/usecases/CreateDiagnosisUseCase.ts:67-90 | flipping the lead and cuddle letters keeps the other two letters and changes both flipped ones |
| DiagnosisUseCase.IdealPartner | backend/src/application/usecases/CreateDiagnosisUseCase.ts:67-90 | the pair with the same personality code and the lead and cuddle letters flipped is valid whenever the profile is |
| DiagnosisUseCase.IdealScoresFull | backend/src/application/usecases/CreateDiagnosisUseCase.ts:75-78 | the ideal partner scores 100 with a valid profile |
| DiagnosisUseCase.FullScoreIsIdeal | backend/src/application/usecases/CreateDiagnosisUseCase.ts:75-78 | a valid pair scoring 100 with a valid profile is its ideal partner, so the full score is reached exactly once |
| DiagnosisUseCase.FullAgreement | backend/src/domain/services/CompatibilityCalculator.ts:46-54 | two legal flag sets score 100 only when they agree on all six similarity axes and differ on both complement axes |
| DiagnosisUseCase.BestOfIsIdeal | backend/src/application/usecases/CreateDiagnosisUseCase.ts:81-89 | among distinct valid candidates that include the ideal partner, it comes first |
| DiagnosisUseCase.BestIsIdeal | backend/src/application/usecases/CreateDiagnosisUseCase.ts:67-90 | the first best partner of a valid profile is its ideal partner |
| DiagnosisUseCase.ListedTotalPositive | backend/src/application/usecases/CreateDiagnosisUseCase.ts:27-47 | a valid profile's life-allocation weights add up to more than zero, so that step never divides by zero |
| DiagnosisUseCase.CaseFoldedTotalPositive | backend/src/infrastructure/algorithms/common/TypeFlags.ts:28-65 | codes that are listed once upper-cased, such as "enfj" and "fare", read the same flags as their upper-case forms, so `execute` on them never divides by zero |
| DiagnosisUseCase.UnlistedZeroTotal | backend/src/infrastructure/algorithms/common/TypeFlags.ts:28-65 | four letters outside every axis alphabet, such as "XXXX", set no flag, so the life-allocation total is zero |
| DiagnosisUseCase.Compose | backend/src/application/usecases/CreateDiagnosisUseCase.ts:29-61 | the aggregate is built only when all five steps succeed, and then holds the two codes and the five results |
| DiagnosisUseCase.ComposeOutcome | backend/src/application/usecases/CreateDiagnosisUseCase.ts:29-61 | for four-character codes the aggregate is built exactly when every step succeeds and always passes validation; otherwise the error is that of the first step to throw, in the source's order |
| DiagnosisUseCase.ListedLengths | backend/src/application/usecases/CreateDiagnosisUseCase.ts:99-135 | valid codes have four characters |
| DiagnosisUseCase.CompatibilityStepAccepted | backend/src/application/usecases/CreateDiagnosisUseCase.ts:35-41 | with non-blank descriptions and summaries, the compatibility step of any profile succeeds with one match per best partner, in the search's order |
| DiagnosisUseCase.DiagnoseWith | backend/src/application/usecases/CreateDiagnosisUseCase.ts:27-59 | the five steps of `execute` on the given flags and best partners, composed by `Compose`: the first step that throws decides the error, otherwise the validated aggregate |
| DiagnosisUseCase.Diagnose | backend/src/application/usecases/CreateDiagnosisUseCase.ts:25-62 | `execute` for a listed profile: the steps on its flags with the three best partners of the search; `DiagnoseErrors` and `DiagnoseAccepted` state what it yields |
| DiagnosisUseCase.DiagnoseWithErrors | backend/src/application/usecases/CreateDiagnosisUseCase.ts:25-62 | for four-character codes and flags whose life-allocation total is not zero, only the attractiveness and compatibility steps can throw; the result is built exactly when both succeed and always passes validation |
| DiagnosisUseCase.ComposeWithStepsOk | backend/src/application/usecases/CreateDiagnosisUseCase.ts:29-61 | when the personality, love-language and life-allocation steps succeed, only the other two decide the outcome |
| DiagnosisUseCase.StepsAccepted | backend/src/application/usecases/CreateDiagnosisUseCase.ts:33-47 | the personality, love-language and life-allocation steps never throw on such flags, whatever the text tables hold |
| DiagnosisUseCase.DiagnoseErrors | backend/src/application/usecases/CreateDiagnosisUseCase.ts:25-62 | for a valid profile only the attractiveness and compatibility steps can make `execute` throw |
| DiagnosisUseCase.DiagnoseAccepted | backend/src/application/usecases/CreateDiagnosisUseCase.ts:25-62 | with text tables that cover every level with non-blank texts, `execute` succeeds for every valid profile: the result carries the two codes, passes validation and holds one match per best partner, the ideal partner first |
| DiagnosisUseCase.CreateDiagnosisUseCase.CalculateBestPartners | backend/src/application/usecases/CreateDiagnosisUseCase.ts:67-90 | scoring the pairs into an array, sorting it in place and keeping the first three gives `BestPartners` |
| DiagnosisUseCase.CreateDiagnosisUseCase.Execute | backend/src/application/usecases/CreateDiagnosisUseCase.ts:25-62 | `execute` on any two codes, such as the four-character strings the request handler passes through unchecked: the outcome is `DiagnoseWith` on their flags and the three best partners of the search, and for listed codes it is `Diagnose` |
| DiagnosisUseCase.CreateDiagnosisUseCase.ExecuteSteps | backend/src/application/usecases/CreateDiagnosisUseCase.ts:29-61 | the steps run in order, and the first one to throw decides the error; the outcome is `DiagnoseWith` of the same arguments |
| InfraPopularity.CalcAttractivenessScores | backend/src/infrastructure/algorithms/PopularityAlgorithm.ts:56-96 | the infrastructure scores, with their own weights and clamp, equal the domain calculator's scores for every flag record |
| InfraPopularity.BuildAttractivenessResult | backend/src/infrastructure/algorithms/PopularityAlgorithm.ts:99-129 | the infrastructure result equals the application service's result, or error, for every flag record and text table; an accepted result has the ten-step level of each score and the summary of the three openings and texts |
| InfraPopularity.WorkedLevels | backend/src/infrastructure/algorithms/PopularityAlgorithm.ts:99-129 | ENFJ with FARE gets levels S6, S7 and S10; ISTP with FAPO gets S4, S3 and S2 with total 20 |
| InfraCompatibility.WeightedSum | backend/src/infrastructure/algorithms/CompatibilityAlgorithm.ts:95-103 | the weighted sum of the eight indicators is the domain calculator's raw value for the same agreement record |
| InfraCompatibility.CalcCompatScore | backend/src/infrastructure/algorithms/CompatibilityAlgorithm.ts:78-106 | the infrastructure score, with its own weights and clamp, equals the domain score for every pair of flag records |
| InfraCompatibility.FlavorOfIndicators | backend/src/infrastructure/algorithms/CompatibilityAlgorithm.ts:119-141 | the flavour rules on the counted indicators give the domain calculator's flavour for the same agreement record |
| InfraCompatibility.CalcRelationFlavor | backend/src/infrastructure/algorithms/CompatibilityAlgorithm.ts:112-142 | the infrastructure flavour equals the domain flavour for every pair of flag records |
| InfraCompatibility.GetCompatibilityDescription | backend/src/infrastructure/algorithms/CompatibilityAlgorithm.ts:148-157 | the lookup equals the application service's: the non-empty matrix entry, otherwise the fallback sentence |
| InfraCompatibility.BuildCompatibilityDescription | backend/src/infrastructure/algorithms/CompatibilityAlgorithm.ts:163-173 | the lookup for a finished match equals the application service's and the lookup for its own flavour and level |
| InfraCompatibility.BuildCompatibilityMatch | backend/src/infrastructure/algorithms/CompatibilityAlgorithm.ts:179-199 | the infrastructure match equals the application service's match, or error; an accepted match names the partner and carries the ten-step level of its score |
| InfraCompatibility.GenerateCompatibilitySummary | backend/src/infrastructure/algorithms/CompatibilityAlgorithm.ts:233-269 | the summary is that of the dominant flavour among the best matches, by the same count and walk as the application service; the worst matches are ignored |
| InfraLoveLanguage.KeyScore | backend/src/infrastructure/algorithms/LoveLanguageAlgorithm.ts:56-66 | each infrastructure weighted score, clamped to 100, equals the domain calculator's score for that key |
| InfraLoveLanguage.FilledIsServiceItem | backend/src/infrastructure/algorithms/LoveLanguageAlgorithm.ts:78-83 | a blank item filled at position `i` is the service's item for its score ranked `i + 1` |
| InfraLoveLanguage.SortBlank | backend/src/infrastructure/algorithms/LoveLanguageAlgorithm.ts:68-77 | the in-place sort of the blank items leaves the blank copies of the sorted scores |
| InfraLoveLanguage.FillInPlace | backend/src/infrastructure/algorithms/LoveLanguageAlgorithm.ts:78-83 | the `forEach` sets every item's rank from its position, its five-step level and its text, and changes nothing else |
| InfraLoveLanguage.RankedItems | backend/src/infrastructure/algorithms/LoveLanguageAlgorithm.ts:77-83 | the filled sorted items are the service's items for the ranked sort |
| InfraLoveLanguage.SortAndRank | backend/src/infrastructure/algorithms/LoveLanguageAlgorithm.ts:68-83 | sorting then filling gives the service's items for the ranked sort of the scores |
| InfraLoveLanguage.CalcLoveLanguages | backend/src/infrastructure/algorithms/LoveLanguageAlgorithm.ts:53-94 | the infrastructure result equals the application service's result for every flag record and text table |
| InfraLifeAllocation.WeightedSums | backend/src/infrastructure/algorithms/LifeAllocationAlgorithm.ts:56-60 | the five infrastructure weighted sums equal the domain calculator's |
| InfraLifeAllocation.BlankItems | backend/src/infrastructure/algorithms/LifeAllocationAlgorithm.ts:62-70 | the items are written in the listed order with `(raw / sumRaw) * 100` as percentage and blank level and text |
| InfraLifeAllocation.LabelInPlace | backend/src/infrastructure/algorithms/LifeAllocationAlgorithm.ts:73-77 | the `forEach` sets every item's level from its percentage and its text, and changes nothing else |
| InfraLifeAllocation.LabelledIsServiceItem | backend/src/infrastructure/algorithms/LifeAllocationAlgorithm.ts:73-77 | a blank item, labelled, is the service's item for its score |
| InfraLifeAllocation.LabelledItems | backend/src/infrastructure/algorithms/LifeAllocationAlgorithm.ts:64-77 | the labelled items are the service's items in the same order |
| InfraLifeAllocation.LabelThenSort | backend/src/infrastructure/algorithms/LifeAllocationAlgorithm.ts:73-80 | labelling before the sort gives the same list as the service's labelling after the sort |
| InfraLifeAllocation.LabelAndSort | backend/src/infrastructure/algorithms/LifeAllocationAlgorithm.ts:64-80 | labelling, then sorting in place, gives the service's items for the sorted percentages |
| InfraLifeAllocation.CalcLifeAllocation | backend/src/infrastructure/algorithms/LifeAllocationAlgorithm.ts:53-91 | the infrastructure result equals the application service's result for every flag record whose weighted sums do not add up to zero |
| FrontendTypes.ListsMatchBackend | frontend/src/types/index.ts:8-27 | the two form lists hold 16 different codes each and are exactly the backend's code lists, in the same order |
| FrontendTypes.IsValidUserProfile | frontend/src/types/index.ts:44-50 | the type guard accepts exactly a nickname that is not only white space together with two non-empty codes |
| FrontendTypes.GuardIgnoresLists | frontend/src/types/index.ts:44-50 | the guard accepts codes that are in neither list |
| FrontendValidation.NicknameErrors | frontend/src/utils/validation.ts:20-36 | the nickname check: required when missing or blank, too long when over ten characters once trimmed, too short below one; `NicknameCheckFires` states what it adds |
| FrontendValidation.CodeErrors | frontend/src/utils/validation.ts:38-62 | a code check: required when empty, not listed when outside the given list; `CodeCheckFires` states what it adds |
| FrontendValidation.ErrorsWith | frontend/src/utils/validation.ts:17-63 | the nickname, personality-code and love-code errors one after the other, with the code lists as parameters |
| FrontendValidation.Errors | frontend/src/utils/validation.ts:39-62 | the error list with the form's own two code lists; `ValidateUserProfile` collects exactly it |
| FrontendValidation.ValidateUserProfile | frontend/src/utils/validation.ts:17-68 | `validateUserProfile` collects exactly the nickname, personality-code and love-code errors in that order, and reports valid exactly when there are none |
| FrontendValidation.CheckNickname | frontend/src/utils/validation.ts:20-36 | the nickname step appends the nickname's error, if any, to the list |
| FrontendValidation.CheckCode | frontend/src/utils/validation.ts:38-62 | a code step appends that code's error, if any, to the list |
| FrontendValidation.NicknameCheckFires | frontend/src/utils/validation.ts:20-36 | the nickname step adds at most one error, about the nickname and never "too short", and adds one exactly when the nickname is blank or longer than ten characters once trimmed |
| FrontendValidation.CodeCheckFires | frontend/src/utils/validation.ts:38-62 | a code step adds at most one error, about its own field with one of its two messages, and adds one exactly when the code is empty or not listed |
| FrontendValidation.ErrorsAsParts | frontend/src/utils/validation.ts:17-68 | the error list is the three steps' errors one after the other, each at most one error about its own field |
| FrontendValidation.ShapedOfChecks | frontend/src/utils/validation.ts:17-68 | errors of that form satisfy the shape the lemmas below use |
| FrontendValidation.FieldAt | frontend/src/utils/validation.ts:17-68 | each position of the list belongs to the step it comes from |
| FrontendValidation.ErrorsInFieldOrder | frontend/src/utils/validation.ts:17-68 | the errors name each field at most once, in the order nickname, personality code, love code |
| FrontendValidation.FieldsOfParts | frontend/src/utils/validation.ts:17-68 | a field has an error exactly when its step added one |
| FrontendValidation.NicknameErrorIff | frontend/src/utils/validation.ts:20-36 | there is a nickname error exactly when the nickname is blank or longer than ten characters once trimmed |
| FrontendValidation.NeverTooShort | frontend/src/utils/validation.ts:31-35 | the "at least one character" branch never fires |
| FrontendValidation.CodeErrorsIff | frontend/src/utils/validation.ts:38-62 | each code has an error exactly when it is empty or not in its list |
| FrontendValidation.ValidPassesGuard | frontend/src/utils/validation.ts:17-68 | a profile without errors passes the type guard; the guard is weaker, since an eleven-character nickname passes it but not the validator |
| FrontendValidation.GetFieldError | frontend/src/utils/validation.ts:73-78 | `getFieldError` gives nothing exactly when the field has no error, and otherwise the message of the field's first error |
| FrontendValidation.FieldErrorOfProfile | frontend/src/utils/validation.ts:38-78 | the message shown for the personality code is "required" for an empty code, "not listed" for an unlisted one, and nothing otherwise |

## Left out

- IEEE-754 doubles: every score is an exact `real`. Rounding at bucket thresholds is not modelled. The `Math.min(100, …)` clamps are written out and proved never to change a value.
- LifeAllocationCalculator.Calculate, LifeAllocationCalculator.CalculateScores, LifeAllocationService.CalcLifeAllocation, InfraLifeAllocation.CalcLifeAllocation, DiagnosisUseCase.CreateDiagnosisUseCase.ExecuteSteps and DiagnosisUseCase.CreateDiagnosisUseCase.Execute require the weighted-sum total to be non-zero. In the source that case divides by zero: every percentage is NaN, `levelFromPercent` gives S1, the sum check `Math.abs(NaN - 100) > 1` is false, and `execute` returns a result with NaN percentages instead of throwing. NaN is not represented. No listed code, and no code that is listed once upper-cased, gives a zero total (`LifeAllocationCalculator.LegalTotalPositive`, `DiagnosisUseCase.CaseFoldedTotalPositive`). But the request check looks only at the length, so the handler can pass four-character codes such as "XXXX" that set no flag (`DiagnosisUseCase.UnlistedZeroTotal`). `Execute` is not modelled for those.
- `toUpperCase` is modelled for ASCII letters only. `trim` uses the ECMAScript white-space and line-terminator set.
- Error messages: each thrown `Error` and each frontend message becomes an error value naming the check that failed. The wording of the messages is not modelled.
- Keys and flavours are enumerations in the model. The source's checks that a key or a relation flavour is one of the listed strings (e.g. `validateRelationFlavor`) therefore cannot fail, and they are not modelled separately.
- The `label` field is called `labelText`, because `label` is a Dafny keyword.
- Text dictionaries are parameters that the model does not look inside:
  - the personality, popularity, compatibility-matrix, flavour-summary, love and life texts;
  - the constant text tables of the infrastructure algorithms.

  Builders require those tables to hold a non-blank entry for each level they look up. Where the source has a fixed fallback sentence, the model has it too.
- The best/worst `buildCompatibilityResult` at backend/src/infrastructure/algorithms/CompatibilityAlgorithm.ts:205-227 is not modelled. It builds a shape that `Compatibility.ts` does not export.
- String lengths are counted in characters, not UTF-16 code units.
- LoveLanguageService.CalcLoveLanguagesAccepted and LifeAllocationService.CalcLifeAllocationAccepted state only that the profile-level call succeeds. The contents of the items are stated for any scores by `AssembleAccepted` and linked to a profile by `ItemsOfProfile`.
- DiagnosisResult: the source's `DiagnosisResults` interface declares two fields, but the entity is built with all five domains. The model holds the five results as optional fields.
- Null and undefined checks become emptiness checks or `Option` values.
- DiagnosisUseCase.CreateDiagnosisUseCase.Execute computes the best partners before the personality and love-language steps. The source computes them after. The search is pure, so the result is the same.
- The compatibility and life-allocation steps of the use case are modelled on backend/src/application/services/CompatibilityAlgorithm.ts and LifeAllocationAlgorithm.ts. `CompatibilityService` and `LifeAllocationService`, which the use case imports, are not part of this model.
- The infrastructure algorithms use the application's `ScoreBuckets` and `TypeFlags` modules. Their own `common/` copies are taken to be the same.
- Frontend MBTI and love-type codes are strings. The frontend lemmas are stated for any lists of codes.
- LoveLanguage.Create: the rank check is modelled as "the ranks are a permutation of 1..5". The source sorts the ranks as strings; for ranks 1..5 this gives the same answer (`LoveLanguage.RanksOkIffPermutation`).
- LoveLanguage.CreateItem: ranks are integers, while the source's `rank` is any number. A fractional rank such as 2.5 passes the source's `1 <= rank <= 5` item check and is rejected only by the rank check of `createLoveLanguage`; the model does not represent it. The calculator only produces the ranks 1..5.
- The HTTP handler, JSON parsing, the `DiagnosisResponseDTO` identity function, storage, fetch and the React UI are I/O or rendering, and are not modelled.
