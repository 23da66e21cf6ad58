# MICMAC cross-impact engine, modelled in Dafny

This project models the computational core of the "MICMAC Libre" Streamlit
application (`micmac.py`). MICMAC is a structural analysis method. A user
names N variables and scores how strongly each one acts on each other one
in an N×N grid of cross impacts (the MID, or matrix of direct impacts).
Scores are 0 to 3, or "P" for potential influence. The engine then works
out four things:

- each variable's **direct influence and dependence**: the row and column
  sums of the normalised grid;
- its **indirect influence and dependence**: the row and column sums of
  M², M³, M⁴ and M⁵, added up;
- its **potential influence**: direct influence weighted by 1.2 when the
  variable's own diagonal cell is 3;
- its **quadrant** on the direct plane: Key/Challenge, Driving, Dependent
  or Autonomous. This compares the variable strictly with the mean direct
  influence and the mean direct dependence.

Before any of this runs, the analysis is refused when two variables share a
name.

Modules, one per stage of the pipeline:

- `Sums` (`sums.dfy`): sums of integer sequences, linearity, monotonicity,
  and the fact that not every element can lie above the mean.
- `Cells` (`cells.dfy`): `to_numeric`, meaning Python's `str.strip()`,
  `str.upper()` and the lookup table `0/1/2/3/P`.
- `Matrices` (`matrices.dfy`): integer matrices as `seq<seq<int>>`, row and
  column sums, the product `@`, powers built as `M^(k+1) = M^k @ M`, and
  facts about these: non-negativity, monotonicity and size bounds.
- `Propagation` (`propagation.dfy`): direct, indirect and potential metrics.
- `Classification` (`classification.dfy`): `clasificar` and the shared means.
- `Analysis` (`analysis.dfy`): the duplicate-name guard, normalisation of
  the grid, and the full results table.

Modelling choices:

- All arithmetic is exact over `int`. The source multiplies matrices in
  floating point. `Propagation.IndirectFitsInDouble` proves that for at most
  100 variables with impacts 0..3, every indirect score is an integer below
  2^53. Matrix entries and partial sums of non-negative terms are smaller
  still. So the floating-point results are these integers exactly.
- Potential influence is kept in tenths: a weight of 12 means 1.2 and a
  weight of 10 means 1.
- A mean comparison `x > total / n` is written `x * n > total`.
  `Classification.AboveMeanIsAboveDivision` proves the two forms agree for
  `n > 0`. The direct scores are integers, at most 300 per variable and
  30000 in total for N ≤ 100. A non-integer mean `total / n` is therefore at
  least `1/n` away from every integer. The floating-point mean of the source
  cannot land on the other side of an integer score.
- Both means come from the same total, because the sum of all row sums
  equals the sum of all column sums. So the two quadrant lines always sit at
  the same value (`Analysis.Sound`, `Propagation.DirectTotalsAgree`).

The potential weight is documented in the source's own comments
(micmac.py:84-85) as a slightly larger weight for potential impacts, meant
only where a cell holds "P". The code, however, tests `MID == 3` after
normalisation (micmac.py:85), and a "P" has already become 3 by then. So
a diagonal "3" also triggers the weight, and so does " p ". The model
follows the code: `Analysis.RawDiagonalWeight` states the rule the code
implements. Only the diagonal of the weight matrix is read (micmac.py:86).

## Model

| member | source | states |
|---|---|---|
| `Cells.ToNumeric` | micmac.py:57-60 | Every cell has a weight in 0..3. The weight is 3 exactly when the stripped cell is "3", "P" or "p", and 2 or 1 exactly when it is "2" or "1". Every other text, blank included, weighs 0. |
| `Cells.Strip` | micmac.py:58 | The stripped text neither starts nor ends with whitespace (Python's `isspace` set), is no longer than the input, and keeps every non-whitespace character of the input. The input is the result with runs of whitespace before and after it. |
| `Cells.Upper` | micmac.py:58 | Upper-casing keeps the length; its contract states only that. Its meaning for the lookup is stated by `Cells.UpperKey`. |
| `Cells.UpperKey` | micmac.py:58-59 | Upper-casing yields a table key "0"–"3" only from that same digit, and yields "P" only from "P" or "p". |
| `Cells.StripPadded` | micmac.py:58 | Stripping whitespace-padded text that has no edge whitespace gives back exactly that text. |
| `Cells.StripIdempotent` | micmac.py:58 | Stripping twice is the same as stripping once. |
| `Cells.StripIgnoresPadding` | micmac.py:58 | Adding whitespace around any text does not change what stripping it gives. |
| `Cells.ToNumericIgnoresPadding` | micmac.py:57-60 | Whitespace added around a cell never changes its weight. |
| `Cells.PotentialTokenWeighsThree` | micmac.py:59-60 | "p" and "P" both weigh 3. |
| `Cells.PaddedDigitExample` | micmac.py:58-60 | " 2\n" weighs 2. |
| `Cells.BlankWeighsZero` | micmac.py:58-60 | "" and "   " weigh 0. |
| `Cells.UnknownTextWeighsZero` | micmac.py:60 | "x", "4" and "PP" weigh 0. |
| `Analysis.Normalize` | micmac.py:62 | The normalised grid is square, has the grid's size, has every entry in 0..3, and holds each cell's `to_numeric` weight in that cell's position. |
| `Analysis.DistinctIffSetSize` | micmac.py:27 | The set of names has as many elements as the list exactly when no name occurs twice. |
| `Analysis.NormalizedSums` | micmac.py:62-71 | The row sums and column sums of the normalised grid are the sums of the cells' `to_numeric` weights along that row and that column of the raw grid. |
| `Analysis.Metrics` | micmac.py:70-119 | The report lists the names in order and has one entry per variable in every column; its contract states only that shape. What the columns hold is stated by `Analysis.MetricsSound` and `Analysis.MetricsOfGrid`. |
| `Analysis.MetricsOfGrid` | micmac.py:62-119 | The report built from a raw grid lists the names and satisfies `Sound`. Its direct scores are the row and column sums of the cell weights, and its indirect scores are those of the normalised grid. Its potentials carry the 6/5 weight exactly where the raw diagonal cell strips to "3", "P" or "p". For N ≤ 100 its indirect scores are below 2^53. |
| `Analysis.Analyze` | micmac.py:27-119 | The analysis fails exactly when some name is duplicated. On success the table lists the names in order and satisfies `Sound`. Each direct influence is the sum of the `to_numeric` weights along that row of the raw grid, and each direct dependence the sum down that column. The indirect scores are those of the normalised grid. Each potential is direct influence ×6/5 exactly when the raw diagonal cell strips to "3", "P" or "p", and ×1 otherwise. For N ≤ 100 every indirect score is below 2^53. |
| `Analysis.MetricsSound` | micmac.py:70-119 | The table has one row per variable. Influence and dependence totals are equal, for direct scores and for indirect ones. Direct scores lie in 0..3N and indirect scores are non-negative. Each potential lies between 1 and 1.2 times the direct influence. Each quadrant is the side of the shared means its variable lies on. Some variable is not above each mean. |
| `Analysis.DirectScoresBounded` | micmac.py:70-86 | With impacts in 0..3, each direct influence and dependence lies in 0..3N. Each potential lies between 1 and 1.2 times the direct influence. |
| `Analysis.RawDiagonalWeight` | micmac.py:85-86 | Potential influence is scaled by 6/5 exactly when the raw diagonal cell strips to "3", "P" or "p", and is left unscaled otherwise. |
| `Analysis.WorkedExample` | micmac.py:70-117 | For the grid [[0,1,2],[0,0,3],[1,0,0]], influences are [3,3,1] and dependences are [1,1,5]. The variables classify as Driving, Driving, Dependent. |
| `Matrices.ColSumsTotal` | micmac.py:70-71 | The column sums of a grid add up to the same total as its row sums. |
| `Propagation.DirectInfluence` | micmac.py:70 | One score per variable; the contract states only the length. The meaning is stated by `Propagation.DirectTotalsAgree`, `Analysis.DirectScoresBounded` and `Analysis.NormalizedSums`. |
| `Propagation.DirectDependence` | micmac.py:71 | One score per variable; the contract states only the length. The meaning is stated by `Propagation.DirectTotalsAgree`, `Analysis.DirectScoresBounded` and `Analysis.NormalizedSums`. |
| `Propagation.DirectTotalsAgree` | micmac.py:70-71 | Total direct influence and total direct dependence both equal the sum of all matrix entries. |
| `Propagation.IndirectInfluence` | micmac.py:81 | One score per variable; the contract states only the length. The meaning is stated by `Propagation.IndirectUnrolled`, `Propagation.IndirectMono` and `Propagation.IndirectTotalsAgree`. |
| `Propagation.IndirectDependence` | micmac.py:82 | One score per variable; the contract states only the length. The meaning is stated by `Propagation.IndirectUnrolled`, `Propagation.IndirectMono` and `Propagation.IndirectTotalsAgree`. |
| `Propagation.IndirectUnrolled` | micmac.py:75-82 | Indirect influence (or dependence) of a variable is the sum of its row (or column) sums in the four matrices m2 = m@m, m3 = m2@m, m4 = m3@m and m5 = m4@m. |
| `Propagation.ThroughTotalsAgree` | micmac.py:81-82 | At every depth, the accumulated row sums of the powers and the accumulated column sums have the same total. |
| `Propagation.IndirectTotalsAgree` | micmac.py:81-82 | Total indirect influence equals total indirect dependence. |
| `Propagation.ThroughNonNeg` | micmac.py:74-82 | A non-negative matrix gives non-negative accumulated scores at every depth. |
| `Propagation.IndirectNonNeg` | micmac.py:74-82 | A non-negative matrix gives non-negative indirect influence and dependence for every variable. |
| `Propagation.ThroughMono` | micmac.py:74-82 | If every entry of a non-negative matrix is at most the matching entry of another, then every accumulated score of the first is at most that of the second, at every depth. |
| `Propagation.IndirectMono` | micmac.py:74-82 | Raising entries of a non-negative matrix never lowers any indirect influence or dependence. |
| `Propagation.ThroughBound` | micmac.py:74-82 | For N ≤ 100 and impacts 0..3, accumulated scores to depth k are at most the sum of 300^j for j = 2..k. |
| `Propagation.IndirectFitsInDouble` | micmac.py:74-82 | For N ≤ 100 and impacts 0..3, every indirect score is a non-negative integer below 2^53, so the floating-point computation is exact. |
| `Propagation.PotentialWeights` | micmac.py:85 | The weight matrix is square and as large as the grid; the contract states only that shape. The diagonal weights it yields are stated by `Propagation.PotentialScaling` and `Propagation.PotentialIgnoresOffDiagonalWeights`. |
| `Propagation.PotentialInfluence` | micmac.py:86 | One potential per variable; the contract states only the length. The 6/5-or-1 scaling is stated by `Propagation.PotentialScaling`. |
| `Propagation.PotentialScaling` | micmac.py:85-86 | Potential influence is 6/5 of direct influence when the diagonal impact is 3, and equal to it otherwise. |
| `Propagation.PotentialReadsOwnRowOnly` | micmac.py:85-86 | A variable's potential influence depends only on its own row of the matrix. |
| `Propagation.PotentialIgnoresOffDiagonalWeights` | micmac.py:85-86 | Two matrices with the same diagonal impact for a variable give that variable the same weight, and so the same ratio of potential to direct influence, whatever their other entries. Off-diagonal weights are never read. |
| `Matrices.MatMul` | micmac.py:75-78 | The product of two N×N matrices is N×N; the contract states only that shape. Its meaning is stated by `Matrices.MatMulNonNeg` and `Matrices.MatMulMono`. |
| `Matrices.Power` | micmac.py:75-78 | Every power of an N×N matrix is N×N; the contract states only that shape. Its meaning is stated by `Matrices.PowerNonNeg`, `Matrices.PowerMono` and `Propagation.IndirectUnrolled`. |
| `Matrices.PowerNonNeg` | micmac.py:75-78 | Every power of a non-negative matrix is non-negative. |
| `Matrices.MatMulNonNeg` | micmac.py:75 | The product of non-negative matrices is non-negative. |
| `Matrices.DotMono` | micmac.py:75 | The inner product of non-negative vectors grows with each argument. |
| `Matrices.MatMulMono` | micmac.py:75 | The matrix product of non-negative matrices is monotone in both factors, entry by entry. |
| `Matrices.PowerMono` | micmac.py:75-78 | If a non-negative matrix is dominated entry by entry by another, so is each of its powers by the other's. |
| `Matrices.RowSumsMono` | micmac.py:81 | Entry-wise domination carries over to row sums. |
| `Matrices.ColSumsMono` | micmac.py:82 | Entry-wise domination carries over to column sums. |
| `Matrices.PowerEntryBound` | micmac.py:75-78 | With impacts 0..3, entries of the k-th power of an N×N matrix lie in 0..3^k·N^(k-1). |
| `Matrices.PowerSumsBound` | micmac.py:81-82 | With impacts 0..3, row and column sums of the k-th power are at most 3^k·N^k. |
| `Classification.Classify` | micmac.py:109-117 | The quadrant is above the influence mean exactly when the influence exceeds it strictly, and above the dependence mean exactly when the dependence exceeds it strictly. |
| `Classification.AboveMeanIsAboveDivision` | micmac.py:106-110 | For n > 0, `x * n > total` holds exactly when x exceeds the real mean total / n. |
| `Classification.QuadrantDeterminedBySides` | micmac.py:109-117 | Two quadrants on the same side of both means are equal, so the four labels form a partition. |
| `Classification.AtMeansIsAutonomous` | micmac.py:109-117 | A variable exactly at both means is Autonomous. |
| `Classification.ClassifyAll` | micmac.py:106-119 | Each variable's label says whether it lies strictly above the mean influence and strictly above the mean dependence. Both means are computed once over all variables. |
| `Classification.ClassificationMonotone` | micmac.py:106-119 | The thresholds are shared: a variable at least as influential (or dependent) as one above the mean is also above it. |
| `Classification.SomeVariableNotAboveMeans` | micmac.py:106-117 | In every non-empty analysis, some variable is Dependent or Autonomous, and some variable is Driving or Autonomous. |
| `Sums.NotAllAboveMean` | micmac.py:106-107 | Some element of a non-empty sequence is at most the sequence's mean. |

## Left out

- The Streamlit user interface (micmac.py:9-54, 91-103, 120-121, 168-169) is left out. It covers page text, the variable-count slider, the name inputs, the editable grid and the results display. The model takes the names and the grid of cell texts as parameters.
- The 3..100 bound on the number of variables is a slider limit (micmac.py:18). It is not required by the engine. It appears only as the `N ≤ 100` premise of the exactness bound.
- The Plotly scatter plots and their quadrant lines (micmac.py:126-149) are left out as visualisation. The plot-dataset assembly is left out with them. The model does keep the two mean totals the quadrant lines would be drawn at.
- The CSV and PNG exports (micmac.py:154-166) are left out as I/O, and with them the export round trip of the results table.
- The truncation depth is fixed at 5 in the code (micmac.py:74-82), and so is `Propagation.Depth`. The accumulation functions `InfluenceThrough` and `DependenceThrough` take the depth as a parameter, and their lemmas hold at every depth.
- The display rounding (`.round(1)`, `astype(int)`, micmac.py:95-99) is left out. Values are modelled exactly.
- `Cells.Upper`: models upper-casing of the ASCII letters only. Python's `str.upper` also maps other letters, and can lengthen a text, but no other character upper-cases to a digit or to "P". Table lookups therefore give the same result.
- `Propagation.PotentialInfluence`: computes exactly 6/5 of the direct influence, in tenths. The source multiplies by the double nearest to 1.2, so its potential can differ in the last binary digit. That value is only displayed rounded and used as a point size.
- `str(val)` in `to_numeric` is not modelled: cells are taken to be text already. An empty cell that arrives as `None` becomes the text "None", which weighs 0 like any unknown text.
