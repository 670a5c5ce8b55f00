# Letters on consecutive numbers, as a binary integer program

Four small Kotlin programs (`Example1` .. `Example4`) use the ojAlgo
`ExpressionsBasedModel` to place *letters* on *numbers* 1..N. A letter may
need a run of several consecutive numbers, and no number may carry two
letters. Every program follows the same steps:

- It creates one binary variable per (letter, number) *slot* (`Slot.all`,
  letter-major). Ids come from a global counter, so the slot of letter l and
  number n is variable l*N + n.
- It adds each letter's expressions. A once-letter (Example1, Example2) gets
  `upper(1)` on its slots. A letter needing k numbers (Example3, Example4)
  gets `level(k)` on its slots. When k > 1 it also gets the windowed-indicator
  contiguity encoding:
  - one `allGroupSlots` expression `level(1)`;
  - for every rolling batch of k consecutive slots, a fresh binary b and the
    expression `sum(batch) - k*b >= 0`.
- It adds each number's `upper(1)` over its slots.
- Example2 and Example3 then add two side expressions with `level(1)`: one over
  C's slots at numbers >= 3, one over D's slots at numbers <= 2.

The model works with values instead of ojAlgo objects:
- the builders are pure functions that thread the two id counters;
- an expression is a list of (variable, coefficient) terms with a kind
  (`level`/`upper`/`lower`) and a bound;
- an assignment gives an integer to every variable id; a solution is a
  feasible one.

The central results are in module `Placement`:
- the occupancy grid of a feasible assignment places every letter on an
  admissible run of consecutive numbers, with no two letters sharing a number;
- every such placement yields a feasible assignment;
- so a grid is the occupancy of some feasible assignment exactly when it is
  the grid of a valid placement.

The per-program modules instantiate these results. They show, for example:
- the solutions of Example1 are exactly the partial matchings;
- Example3's "D at most TWO" side expression forces D onto exactly the numbers
  2, 3, 4, because a run of three starting at 1 covers both 1 and 2 and so
  sums to 2, not 1.

Modules:
- `Options`: the option type.
- `Sums`: sums, binary sequences, runs.
- `Rolling`: `rollingBatches`.
- `Linear`: expressions, counters, assignments, feasibility.
- `Slots`: slots, `Slot.all`, the slot filters.
- `Builders`: the `addConstraints` functions.
- `Encoding`: what one letter's expressions mean.
- `Placement`: the whole model.
- `Matching`: the at-most-once programs.
- `Sides`: the side expressions.
- `Example1` .. `Example4`: the four programs' instances.

The programs use only the windowed-indicator contiguity encoding, and so
does this model.

## Model

| member | source | states |
|---|---|---|
| Rolling.RollingBatches | src/main/kotlin/Example4/Example4.kt:136-138 | The call throws (the result is absent) exactly when the batch size is negative, or when size plus batch size exceeds `Int.MAX_VALUE`, so that `i + batchSize` wraps to a negative end index. Otherwise there are `size - k + 1` batches, none when k exceeds the size, and batch i is the k elements from index i |
| Rolling.ThrowsExactly | src/main/kotlin/Example4/Example4.kt:136-137 | Some start index in 0..size makes `subList` throw, with the end index computed in wrapping `Int` arithmetic, if and only if the batch size is negative or size plus batch size exceeds `Int.MAX_VALUE` |
| Rolling.FirstWrap | src/main/kotlin/Example4/Example4.kt:136-137 | When size plus a non-negative batch size k exceeds `Int.MAX_VALUE`, start index `Int.MAX_VALUE - k + 1` lies within 0..size and its wrapped end index makes `subList` throw, while no earlier start index throws |
| Rolling.Batches | src/main/kotlin/Example4/Example4.kt:136-138 | The batches `rollingBatches` gives when it does not throw: `size - k + 1` of them when k <= size and none otherwise, batch i being the k elements from index i |
| Rolling.BatchesAreSublists | src/main/kotlin/Example1/Example1.kt:91-93 | A list is one of the batches if and only if it is a contiguous sublist of length k |
| Rolling.BatchesSlide | src/main/kotlin/Example3/Example3.kt:133-135 | Consecutive batches slide by one: batch i+1 is batch i without its head, followed by element i+k |
| Slots.AllSlots | src/main/kotlin/Example4/Example4.kt:124-132 | `Slot.all` has L*N slots; the slot at position i owns variable i+1, and its letter and number are in range |
| Slots.AllSlotsOrdered | src/main/kotlin/Example4/Example4.kt:128-131 | `Slot.all` is strictly ordered by letter, then by number, so no (letter, number) pair appears twice |
| Slots.AllSlotsAt | src/main/kotlin/Example3/Example3.kt:121-129 | The slot of letter l and number n sits at position l*N + n - 1 and owns variable l*N + n |
| Slots.LetterSlotsOfAll | src/main/kotlin/Example4/Example4.kt:46-48 | `Letter.slots` is the letter's row: its N slots in number order, so `sortedBy` leaves the filtered list unchanged |
| Slots.NumberSlotsOfAll | src/main/kotlin/Example4/Example4.kt:101-103 | `Number.slots` is the number's column: one slot per letter, in letter order |
| Slots.RowAtLeast | src/main/kotlin/Example3/Example3.kt:22-26 | Filtering a letter's slots by `number >= m` keeps exactly the suffix from number m |
| Slots.RowAtMost | src/main/kotlin/Example3/Example3.kt:29-33 | Filtering a letter's slots by `number <= m` keeps exactly the prefix up to number m |
| Builders.Windows | src/main/kotlin/Example4/Example4.kt:69-81 | Each batch creates one fresh binary and one expression. The ids follow the counters consecutively |
| Builders.WindowAt | src/main/kotlin/Example4/Example4.kt:75-80 | Window j is `lower(0)` over its batch's slot variables with coefficient 1 and its own group binary with coefficient -k |
| Builders.LetterConstraints | src/main/kotlin/Example4/Example4.kt:50-83 | A letter creates `size - k + 1` group binaries when 1 < k <= size and none otherwise. Variable and expression ids are consecutive from the counters |
| Builders.LetterBlocks | src/main/kotlin/Example4/Example4.kt:24 | Over all letters, the created binaries and the expressions carry consecutive ids from the counters |
| Builders.NumberBlocks | src/main/kotlin/Example4/Example4.kt:25 | Every number adds exactly one expression and no variable |
| Builders.NumberConstraint | src/main/kotlin/Example4/Example4.kt:105-113 | A number's expression takes the next function id, is `upper(1)` over one coefficient-1 term per slot on that slot's occupancy variable, and so holds under an assignment exactly when the occupancy values of the number's slots sum to at most 1 |
| Builders.BuildModel | src/main/kotlin/Example4/Example4.kt:22-25 | Expressions are named Func1, Func2, .. in creation order. The variables are at least the L*N slots |
| Builders.AddSide | src/main/kotlin/Example3/Example3.kt:21-33 | A side expression keeps every earlier expression and creates no variable. It appends one `level(1)` expression with the next function id and a coefficient-1 term on each selected slot's variable, in order |
| Encoding.WindowValue | src/main/kotlin/Example4/Example4.kt:75-80 | A window expression evaluates to the batch's occupancy minus k times its group binary |
| Encoding.BatchHolds | src/main/kotlin/Example4/Example4.kt:75-80 | Window j holds if and only if batch j has at least k times window j's group binary occupied |
| Encoding.WindowHolds | src/main/kotlin/Example4/Example4.kt:69-81 | Window j holds if and only if the occupancy of the row's numbers j+1 .. j+k minus k times window j's group binary is at least 0 |
| Encoding.WindowsMeaning | src/main/kotlin/Example4/Example4.kt:69-81 | All window expressions hold if and only if every window j covers k times its group binary: the row's sum over j..j+k-1 minus k*b_j is at least 0 |
| Encoding.RunHolds | src/main/kotlin/Example4/Example4.kt:53-81 | A letter with k > 1 creates exactly the windows' binaries, and its expressions hold if and only if its total, its group sum and all its windows hold |
| Encoding.OnesMeaning | src/main/kotlin/Example4/Example4.kt:53-57 | An expression with all coefficients 1 holds if and only if the sum of its variables meets `level`, `upper` or `lower` |
| Encoding.NumberMeaning | src/main/kotlin/Example4/Example4.kt:105-113 | A number's expression holds if and only if at most one of its slots is occupied |
| Encoding.SingleMeaning | src/main/kotlin/Example1/Example1.kt:44-52 | A letter without windows (a once-letter, or k <= 1) satisfies its expressions if and only if its row meets the letter's encoding |
| Encoding.RunMeaning | src/main/kotlin/Example3/Example3.kt:57-90 | A letter with k > 1 satisfies its expressions if and only if its row sums to k, its group binaries sum to 1, and every window covers k times its group binary |
| Encoding.LetterMeaning | src/main/kotlin/Example4/Example4.kt:50-83 | Any letter's expressions hold if and only if its row and group values meet the letter's encoding |
| Encoding.OutsideWindow | src/main/kotlin/Example4/Example4.kt:59-64 | When one window of a binary row holds the row's whole sum, the parts before and after the window are binary and sum to 0 |
| Encoding.ConcentratedRun | src/main/kotlin/Example4/Example4.kt:59-64 | A binary row summing to k, with k ones inside one window of length k, is the run of that window |
| Encoding.EncodingSound | src/main/kotlin/Example4/Example4.kt:59-81 | Binary values meeting the encoding are a run of k consecutive ones inside 1..N. When k > 1, the group binaries single out that run's start |
| Encoding.EncodingComplete | src/main/kotlin/Example4/Example4.kt:59-81 | Every run of k consecutive numbers inside 1..N, with the group binary of its start set, meets the encoding |
| Placement.LetterBlocksMeaning | src/main/kotlin/Example4/Example4.kt:24 | The expressions of letters l.. all hold if and only if each of those letters' rows and its own group binaries meet its encoding |
| Placement.OwnBlockIds | src/main/kotlin/Example4/Example4.kt:65-81 | Letter l creates exactly its own group ids, which follow the slot variables and the earlier letters' group binaries; the counter then stands at the next letter's base |
| Placement.OwnBlockMeaning | src/main/kotlin/Example4/Example4.kt:50-83 | Letter l's expressions over its filtered slots hold if and only if its row and its own group binaries meet its encoding |
| Placement.LetterBlocksCreated | src/main/kotlin/Example4/Example4.kt:24 | The letters from l on create exactly the group binaries of those letters |
| Placement.NumberBlocksMeaning | src/main/kotlin/Example4/Example4.kt:105-113 | The expressions of numbers j+1 .. N all hold if and only if each of those numbers' columns sums to at most 1 |
| Placement.VariableCount | src/main/kotlin/Example4/Example4.kt:14 | The model has the L*N slot variables plus every letter's group binaries |
| Placement.ModelHolds | src/main/kotlin/Example4/Example4.kt:22-25 | All the model's expressions hold if and only if every letter meets its encoding and every number holds at most one letter |
| Placement.ModelMeaning | src/main/kotlin/Example4/Example4.kt:22-25 | An assignment is feasible if and only if it is binary on every variable, every letter meets its encoding, and every number is used at most once |
| Placement.RowStart | src/main/kotlin/Example4/Example4.kt:50-83 | A binary row and groups meeting the encoding are the row of some admissible start |
| Placement.ColumnsIffApart | src/main/kotlin/Example4/Example4.kt:105-113 | The columns of a placement's grid each sum to at most 1 if and only if no two letters' runs overlap |
| Placement.GridBinary | src/main/kotlin/Example4/Example4.kt:126 | Under binary values, every row, every column and every letter's group values are 0/1 |
| Placement.RowStartAt | src/main/kotlin/Example4/Example4.kt:50-83 | A binary row and group values meeting the letter's encoding are the row of the letter at some admissible start |
| Placement.Sound | src/main/kotlin/Example4/Example4.kt:22-25 | The occupancy grid of every feasible assignment is the grid of a valid placement |
| Placement.PlacementBinary | src/main/kotlin/Example4/Example4.kt:71 | A placement's assignment gives every variable the value 0 or 1 |
| Placement.PlacementRows | src/main/kotlin/Example4/Example4.kt:124-132 | A placement's assignment has that placement's grid as its occupancy |
| Placement.PlacementEncoded | src/main/kotlin/Example4/Example4.kt:50-83 | Under a valid placement's assignment every letter meets its encoding |
| Placement.PlacementFree | src/main/kotlin/Example4/Example4.kt:105-113 | Under a valid placement's assignment no number holds two letters |
| Placement.Satisfied | src/main/kotlin/Example4/Example4.kt:22-25 | Binary values on every variable, every letter's encoding met and every number at most once make an assignment feasible |
| Placement.Complete | src/main/kotlin/Example4/Example4.kt:22-25 | Every valid placement yields a feasible assignment with that placement's grid |
| Placement.Characterization | src/main/kotlin/Example3/Example3.kt:16-19 | A grid is the occupancy of some feasible assignment if and only if it is the grid of some valid placement |
| Matching.OnceLetterExpression | src/main/kotlin/Example1/Example1.kt:44-52 | A once-letter's only expression is `upper(1)` over its row's variables |
| Matching.MatchingIsPlacement | src/main/kotlin/Example1/Example1.kt:44-74 | For once-letters, the valid placements are exactly the partial matchings of letters to numbers |
| Matching.MatchingSolutions | src/main/kotlin/Example1/Example1.kt:18-21 | Solution grids of an at-most-once model are exactly the grids of partial matchings |
| Matching.NothingPlaced | src/main/kotlin/Example1/Example1.kt:44-74 | The all-zero assignment satisfies every at-most-once model |
| Sides.SideMeaning | src/main/kotlin/Example2/Example2.kt:22-34 | Adding a side expression keeps exactly the solutions that occupy one of the selected slots |
| Sides.AtLeastCount | src/main/kotlin/Example3/Example3.kt:21-26 | On a placed letter, the slots with `number >= low` sum to the overlap of its run with low..N |
| Sides.AtMostCount | src/main/kotlin/Example3/Example3.kt:28-33 | On a placed letter, the slots with `number <= high` sum to the overlap of its run with 1..high |
| Sides.OnceAtLeast | src/main/kotlin/Example2/Example2.kt:22-27 | A once-letter at s meets the numbers low..N in one number if it is placed at low or later, and in none otherwise |
| Sides.OnceAtMost | src/main/kotlin/Example2/Example2.kt:29-34 | A once-letter at s meets the numbers 1..high in one number if it is placed in 1..high, and in none otherwise |
| Example1.Shape | src/main/kotlin/Example1/Example1.kt:79-87 | 25 slots, letter-major, with distinct pairs. The slot of (l, n) owns variable 5l + n |
| Example1.LetterExpression | src/main/kotlin/Example1/Example1.kt:44-52 | Letter l's single expression is `<= 1` over variables 5l+1 .. 5l+5 |
| Example1.NumberExpression | src/main/kotlin/Example1/Example1.kt:66-74 | Number n's expression is `<= 1` over the variables of letters A..E at n |
| Example1.Solutions | src/main/kotlin/Example1/Example1.kt:18-23 | Solution grids are exactly the grids of partial matchings of A..E to 1..5 |
| Example1.ZeroIsSolution | src/main/kotlin/Example1/Example1.kt:46-51 | Placing no letter is a solution, because every expression is an upper bound |
| Example2.Shape | src/main/kotlin/Example2/Example2.kt:93-101 | 25 distinct slots. Each letter's filtered slots are its row, and each number's are its column |
| Example2.SideFacts | src/main/kotlin/Example2/Example2.kt:22-34 | On a matching, the C expression holds if and only if C is at 3..5, and the D expression if and only if D is at 1..2 |
| Example2.MainModelMeaning | src/main/kotlin/Example2/Example2.kt:17-34 | The program's solutions are the base model's solutions that also satisfy both side expressions |
| Example2.Solutions | src/main/kotlin/Example2/Example2.kt:17-34 | Solution grids are exactly the matchings with C at 3..5 and D at 1..2 |
| Example2.SolutionShape | src/main/kotlin/Example2/Example2.kt:22-34 | In every solution, C occupies one number in 3..5 and D one number in 1..2 |
| Example2.OnlyCAndDRows | src/main/kotlin/Example2/Example2.kt:58-66 | The grid with only C at 3 and D at 1 has empty rows for A, B and E |
| Example2.OthersMayBeUnplaced | src/main/kotlin/Example2/Example2.kt:58-66 | Some solution leaves A, B and E unplaced, because letters are only `upper(1)` |
| Example3.Shape | src/main/kotlin/Example3/Example3.kt:121-129 | There are 45 slots, letter-major, with no (letter, number) pair twice |
| Example3.Groups | src/main/kotlin/Example3/Example3.kt:72-89 | Over its 9 sorted slots, B creates 8 group binaries and D creates 7; A, C and E need one number and create none |
| Example3.GroupTotal | src/main/kotlin/Example3/Example3.kt:46-51 | The five letters create 15 group binaries in all |
| Example3.VariableTotal | src/main/kotlin/Example3/Example3.kt:11-12 | The variable counter ends at 60: 45 slot binaries and 15 group binaries |
| Example3.SideFacts | src/main/kotlin/Example3/Example3.kt:21-33 | On a placement, the C expression holds if and only if C starts at 3 or later, and the D expression if and only if D starts at 2 |
| Example3.CFromThree | src/main/kotlin/Example3/Example3.kt:21-26 | C's one number lies in 3..9 exactly when C starts at 3 or later |
| Example3.DUpToTwo | src/main/kotlin/Example3/Example3.kt:28-33 | D's run of three meets 1..2 in exactly one number only when it starts at 2 |
| Example3.MainModelMeaning | src/main/kotlin/Example3/Example3.kt:16-33 | The program's solutions are the base model's solutions that also satisfy both side expressions |
| Example3.Solutions | src/main/kotlin/Example3/Example3.kt:16-33 | Solution grids are exactly the valid placements with C at 3 or later and D on 2, 3, 4 |
| Example3.SolutionShape | src/main/kotlin/Example3/Example3.kt:46-51 | In every solution, B is a run of two, C is one number in 3..9, and D is exactly 2, 3, 4 |
| Example3.SampleAllowed | src/main/kotlin/Example3/Example3.kt:16-33 | The sample placement (A at 1, D on 2..4, B on 5..6, C at 7, E at 8) is valid and meets both side expressions |
| Example3.Satisfiable | src/main/kotlin/Example3/Example3.kt:16-36 | The program has a solution whose grid is the sample placement's |
| Example4.GroupsOfDraws | src/main/kotlin/Example4/Example4.kt:65-81 | A letter that drew 2 creates 99 group binaries and one that drew 1 creates none |
| Example4.VariableCount | src/main/kotlin/Example4/Example4.kt:27 | `countVariables()` is 2000 plus 99 per letter that drew 2, which is between 2000 and 3980 |
| Example4.ScheduleIsPlacement | src/main/kotlin/Example4/Example4.kt:44-83 | For drawn widths 1 and 2, the valid placements are exactly the schedules of disjoint runs inside 1..100 |
| Example4.Solutions | src/main/kotlin/Example4/Example4.kt:22-25 | Solution grids are exactly the grids of schedules |
| Example4.SolutionShape | src/main/kotlin/Example4/Example4.kt:53-81 | In every solution, each letter occupies exactly its drawn number of consecutive numbers |
| Example4.Satisfiable | src/main/kotlin/Example4/Example4.kt:18-25 | For every possible draw there is a solution: letter l at 2l+1 |

## Left out

- The solver is left out: `minimise()`, `options.iterations_suffice` and `mip_gap`. Solutions are characterised as the feasible assignments of the model the programs hand to the solver, not as what ojAlgo returns.
- Printing is left out. This covers `toString`, the solution table and reading values back with `occupied.value`, since these are console output only.
- `ThreadLocalRandom.nextInt(1, maxContiguousBlocks + 1)` in Example4 becomes a parameter. It is the sequence of draws `ks`, constrained to 1..2 by `Example4.Drawn`.
- The global `model` singleton, the `AtomicInteger` counters and the `lazy` properties are not modelled as state. The builders thread the counters as values and return what they add, so creation order becomes the order of the returned lists.
- `sortedBy` is not modelled as a sort. The model proves that the filtered lists are already in the sort key's order (`Slots.LetterSlotsOfAll`, `Slots.NumberSlotsOfAll`), so a stable sort returns them unchanged.
- ojAlgo's `set(variable, coefficient)` overwrites an earlier coefficient of the same variable. No expression here sets a variable twice, so an expression is modelled as a list of terms.
- `binary()` bounds are not a separate expression. Feasibility requires every variable the model created to be 0 or 1.
- Rolling.RollingBatches: a list of at least 2^30 elements can yield some batches before the wrapped end index throws. The batches consumed before the throw are not modelled: any throw gives an absent result.
- Builders.LetterConstraints: takes its windows from `Rolling.Batches`, so it does not model the throw `rollingBatches` raises when the slot count plus `slotsNeeded` exceeds `Int.MAX_VALUE`. The programs have at most 100 slots per letter and `slotsNeeded` at most 3.
- Encoding.EncodingSound: stated for `slotsNeeded >= 0`. The source applies `level(k)` to a negative k without complaint, but no such model has a solution, and no program uses one.
