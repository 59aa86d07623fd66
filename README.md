# DPsim co-simulation interface and data logger, in Dafny

This project models two parts of the DPsim power-system simulator.

**The co-simulation interface** (`dpsim/src/Interface.cpp`) connects a
running simulation to an external process through two packet queues:

- It keeps a table of imported attributes. Each import records the sequence
  id last received for it and whether reading must block on it.
- It keeps a table of exported attributes. Each export records the sequence
  id its next packet will carry.
- Configuration is frozen once the interface is opened.
- Before a step, the pre-step task drains the inbound queue. It first waits
  until no blocking import lags behind the next expected sequence id, then
  takes everything else that is queued.
- After a step, the post-step task pushes one snapshot packet per export and
  gives each export a fresh id from a global counter.
- Both tasks act only on steps that are multiples of the downsampling factor.
- Closing the interface enqueues a close sentinel.
- The writer thread forwards everything except that sentinel to the external
  worker, batch by batch, until it sees the sentinel.

**The data logger** (`Source/DataLogger.cpp`) writes a CSV file:

- Registering an attribute adds one or more named columns to a
  `std::map`. A complex value becomes `.re`/`.im` columns. A matrix becomes
  one column per coefficient, with names derived from its shape.
- The logging step writes a header row when the file is still empty. It then
  writes one row of values on every step that is a multiple of the
  downsampling factor.
- Separate entry points log node-voltage vectors. They name the columns
  `node00000`, `node00001`, … and, in the phasor domain, add `.re`/`.im`.

Modules:

- `Optional`: the `Option` type.
- `Attributes`: attribute values as a closed sum of the kinds the core
  handles, plus `copyValue`.
- `CoSimInterface`: the interface class, the functional specification of
  draining and pushing, and the writer loop.
- `Decimal`: `std::to_string` and zero-padded five-digit rendering of
  naturals, with their parse-back round trips.
- `ColumnMap`: `mAttributes`, taken to be a `std::map<String, ...>`, as an association list kept strictly
  sorted by `std::string` order.
- `ColumnNames`: every column-name derivation, with proofs that each
  expansion produces distinct names.
- `Logging`: the `DataLogger` class.

The state-changing code is modelled as classes whose methods update fields,
as in the source. Each method is proved against a specification function of
the old state (`ReceiveAll`, `Push`, `Put`/`PutAll` over the derived column
lists). Lemmas then prove what those functions promise.

## Model

| member | source | states |
|---|---|---|
| CoSimInterface.Interface.Open | dpsim/src/Interface.cpp:10-20 | sets the opened flag; tables, counters and queues are unchanged |
| CoSimInterface.Interface.Close | dpsim/src/Interface.cpp:22-39 | clears the opened flag and appends exactly one close sentinel (null value, index 0, id 0, close flag) to the outbound queue; nothing else changes |
| CoSimInterface.Interface.GetTasks | dpsim/src/Interface.cpp:41-50 | the pre-step task is returned iff there are imports, the post-step task iff there are exports, no task twice, pre-step before post-step |
| CoSimInterface.Interface.PreStepExecute | dpsim/src/Interface.cpp:52-55 | on a multiple of the downsampling factor the inbound queue is drained as `popDpsimAttrsFromQueue` does, and the returned `blocked` holds exactly when some blocking import lagged behind the entry id after every prefix of the queue; on any other step nothing changes and `blocked` is false |
| CoSimInterface.Interface.PostStepExecute | dpsim/src/Interface.cpp:57-60 | on a multiple of the downsampling factor the outbound state becomes `Push` of the old one; otherwise it is unchanged |
| CoSimInterface.Interface.AddImport | dpsim/src/Interface.cpp:62-69 | before opening, appends the import with recorded id 0 and the given block flag; once opened, reports the fatal configuration error and adds nothing |
| CoSimInterface.Interface.AddExport | dpsim/src/Interface.cpp:71-78 | before opening, appends the export with id 0; once opened, reports the fatal configuration error and adds nothing |
| CoSimInterface.ReceiveWhileLagging | dpsim/src/Interface.cpp:95-111 | consumes a prefix of the queue, each packet taken while some blocking import still lagged behind the expected id, each applied as `ReceiveAll` prescribes (value copied onto the addressed import unless the copy is refused, id recorded, next expected id set to that id plus one); reports `blocked` exactly when the imports still lag at the end, and then the whole queue was consumed |
| CoSimInterface.Interface.AwaitBlockingImports | dpsim/src/Interface.cpp:95-111 | the interface's import table and next expected id become `ReceiveWhileLagging`'s result with the id captured on entry, and exactly the consumed packets leave the inbound queue |
| CoSimInterface.ReceiveEverything | dpsim/src/Interface.cpp:113-120 | dequeuing every packet in order yields exactly `ReceiveAll` of the state over the queue |
| CoSimInterface.Interface.DrainInbound | dpsim/src/Interface.cpp:113-120 | empties the queue, the state becoming `ReceiveAll` of the old state over every queued packet in order |
| CoSimInterface.Interface.PopFromQueue | dpsim/src/Interface.cpp:88-121 | the whole queue is consumed in order, the same as draining it in one go; `blocked` holds iff some blocking import lagged behind the entry id after every prefix of the queue |
| CoSimInterface.ReceiveAll | dpsim/src/Interface.cpp:106-110 | applying packets never changes the size of the import table |
| CoSimInterface.ReceiveAllAppend | dpsim/src/Interface.cpp:99-120 | draining one part of the queue in the blocking loop and the rest in the second loop equals draining the whole queue |
| CoSimInterface.ReceiveAllRecordsLastId | dpsim/src/Interface.cpp:106-110 | after a drain each import records the id of the last packet addressed to it, or keeps its old id; its block flag, attribute identity and type are kept; the next expected id is the last packet's id plus one |
| CoSimInterface.FreshInputsCatchUp | dpsim/src/Interface.cpp:99-104 | if, for every blocking import, the last queued packet addressed to it carries at least the expected id, no blocking import lags after the drain |
| CoSimInterface.PushEach | dpsim/src/Interface.cpp:123-134 | the loop yields `Push` of the outbound state: one snapshot per export in index order carrying its stored id, export `i` restamped with `counter + i`, the counter advanced by the number of exports |
| CoSimInterface.Interface.PushToQueue | dpsim/src/Interface.cpp:123-134 | the outbound state becomes `Push` of the old state: one snapshot per export in index order, then export `i` gets id `counter + i` and the counter grows by the number of exports |
| CoSimInterface.PushAdvances | dpsim/src/Interface.cpp:123-134 | a push appends exactly one packet per export with attribute index `i` carrying the export's previous id, keeps the attributes, keeps stored ids below the counter, and makes every export's next id strictly larger than the one just sent |
| CoSimInterface.PostStepsPacketCount | dpsim/src/Interface.cpp:57-60 | over steps `0..n-1`, the queue grows by the number of exports times the number of multiples of the downsampling factor |
| CoSimInterface.MultiplesInBlock | dpsim/src/Interface.cpp:58 | steps `0 .. k*d + j - 1` hold `k` multiples of `d`, plus one if `j > 0` |
| CoSimInterface.PostStepsPacketsFor | dpsim/src/Interface.cpp:57-60 | over steps `0..n-1`, the queue gains, for each exported attribute, exactly one packet addressed to it per multiple of the downsampling factor |
| CoSimInterface.ExportsPerBlock | dpsim/src/Interface.cpp:57-60 | over `k` whole blocks of `d` steps each exported attribute gets exactly `k` more packets addressed to it, and the queue grows by `k` packets per export in all (with factor 5, fifty steps give ten per attribute) |
| CoSimInterface.DataPackets | dpsim/src/Interface.cpp:149-161 | the kept packets hold no close sentinel, are no more than the input, and are the input itself when it holds no sentinel |
| CoSimInterface.DataPacketsAppend | dpsim/src/Interface.cpp:139-164 | filtering distributes over concatenation, so a vector that accumulates across rounds holds the filtered concatenation of those rounds |
| CoSimInterface.ClosingRound | dpsim/src/Interface.cpp:139-150 | the loop-ending round is the first round holding a close sentinel, or the end of the rounds |
| CoSimInterface.Batches | dpsim/src/Interface.cpp:163 | the `b`-th batch handed to the worker is the `b`-th batch definition, for every round so far |
| CoSimInterface.WriterRound | dpsim/src/Interface.cpp:147-162 | one blocking and then repeated non-blocking dequeues keep exactly the round's non-close packets, appended in order, and report a close sentinel iff the round held one |
| CoSimInterface.WriterLoop | dpsim/src/Interface.cpp:136-165 | the loop stops after the first round holding a close sentinel; one batch per round up to that point, each equal to the round's non-close packets (or all of them so far when the vector is not emptied by the worker), and no batch ever holds a sentinel |
| CoSimInterface.BatchStep | dpsim/src/Interface.cpp:152-163 | a round turns the carried vector into that round's batch, which is what the next round carries unless the worker empties it |
| Attributes.CopyValue | dpsim/src/Interface.cpp:106-108 | a copy succeeds iff the value is present and of the attribute's type, and then stores it; a refused copy changes nothing; identity and type never change |
| Logging.DataLogger.WithoutFile | Source/DataLogger.cpp:30-35 | a logger with downsampling 1 whose stream is bad from the start, so it never writes a row |
| Logging.DataLogger.constructor | Source/DataLogger.cpp:37-57 | a disabled logger opens no file; a failed open disables the logger; otherwise the logger is enabled and its stream accepts writes |
| Logging.DataLogger.Close | Source/DataLogger.cpp:64-66 | after closing the stream no later row is written; columns and rows so far are kept |
| Logging.DataLogger.SetColumnNames | Source/DataLogger.cpp:68-76 | writes the header `time, names...` only while the file is empty; otherwise nothing changes |
| Logging.DataLogger.LogRealLine | Source/DataLogger.cpp:78-85 | an enabled logger with a good stream appends a row with the time and the value; otherwise nothing is written |
| Logging.DataLogger.LogMatrixLine | Source/DataLogger.cpp:87-96 | an enabled logger with a good stream appends a row with the time and the first column of the matrix, one cell per row; otherwise nothing is written |
| Logging.DataLogger.LogComplexMatrixLine | Source/DataLogger.cpp:98-106 | as for the real matrix, with complex cells |
| ColumnNames.PhasorNodeNamePrefix | Source/DataLogger.cpp:111-118 | the first `k` header names for `n` rows: name `i` is node `i`'s `.re` for `i < n/2` and node `i - n/2`'s `.im` otherwise |
| Logging.PhasorNodeNames | Source/DataLogger.cpp:110-118 | the loop builds exactly `PhasorNodeNamePrefix(n, n)`, and those `n` names are pairwise distinct |
| Logging.DataLogger.LogPhasorNodeValues | Source/DataLogger.cpp:108-122 | on an empty file writes the phasor node header first, then logs the first column of the data as `logDataLine` does |
| ColumnNames.EmtNodeNamePrefix | Source/DataLogger.cpp:126-131 | the first `k` header names: name `i` is `node` followed by `i` padded to five digits |
| Logging.EmtNodeNames | Source/DataLogger.cpp:126-131 | the loop builds exactly `EmtNodeNamePrefix(n)`, and those `n` names are pairwise distinct |
| Logging.DataLogger.LogEmtNodeValues | Source/DataLogger.cpp:124-135 | on an empty file writes the EMT node header first, then logs the first column of the data |
| Logging.DataLogger.Log | Source/DataLogger.cpp:137-152 | a disabled logger, or a step that is not a multiple of the downsampling factor, writes nothing; otherwise a header naming every column in map order is written if the file is empty, then a row rendering every column at this step |
| Logging.DataLogger.HeaderNames | Source/DataLogger.cpp:141-145 | the header line is `time` followed by every column name in map order |
| Logging.DataLogger.RenderCells | Source/DataLogger.cpp:148-151 | the data line renders every column's attribute, one cell per column in map order |
| Logging.LogHeaderOrdered | Source/DataLogger.cpp:141-146 | the header names `time` and then every registered column exactly once, in strictly ascending name order |
| Logging.DataLogger.AddInt | Source/DataLogger.cpp:162-164 | the map becomes the old map with `name` assigned to the attribute |
| Logging.DataLogger.AddReal | Source/DataLogger.cpp:166-168 | the map becomes the old map with `name` assigned to the attribute |
| Logging.DataLogger.AddComplex | Source/DataLogger.cpp:170-175 | the map gets `name.re` for the real part and `name.im` for the imaginary part |
| Logging.ComplexRegistration | Source/DataLogger.cpp:170-175 | into a map holding neither name, a complex attribute adds exactly two columns, each found under its name |
| Logging.DataLogger.AddRealMatrix | Source/DataLogger.cpp:177-196 | the map gets the real-matrix expansion for the matrix's shape, assigned in loop order |
| Logging.DataLogger.AddRealColumn | Source/DataLogger.cpp:184-188 | the map gets `name(k)` for every row `k` of a column vector, in order |
| Logging.DataLogger.AddRealGrid | Source/DataLogger.cpp:189-195 | the map gets `name(k, l)` for every coefficient, row by row |
| Logging.RealMatrixRegistration | Source/DataLogger.cpp:177-196 | into a map holding none of its names, a real matrix adds one column if 1x1, one per row if a column vector, rows times columns otherwise, each found under its name |
| Logging.DataLogger.AddComplexMatrix | Source/DataLogger.cpp:198-226 | the row and column limits are clamped; the map gets the complex-matrix expansion for the matrix's shape |
| Logging.DataLogger.AddComplexColumn | Source/DataLogger.cpp:209-215 | the map gets `name_k.re` and `name_k.im` for every kept row `k`, in order |
| Logging.DataLogger.AddComplexGrid | Source/DataLogger.cpp:216-225 | the map gets `name_k_l.re` and `name_k_l.im` for every kept coefficient, row by row |
| Logging.ComplexMatrixRegistration | Source/DataLogger.cpp:198-226 | into a map holding none of its names, a complex matrix adds two columns if 1x1, two per kept row if a column vector, two per kept coefficient otherwise, each found under its name |
| Logging.DataLogger.AddAttribute | Source/DataLogger.cpp:228-274 | dispatches on the attribute's kind to the typed registration (a complex matrix without limits); any other kind is refused with the invalid-attribute outcome and registers nothing |
| Logging.PutAllFindsEach | Source/DataLogger.cpp:185-187 | after assigning a list of distinct names in turn, each name maps to the attribute assigned to it |
| ColumnMap.Put | Source/DataLogger.cpp:163 | `map[key] = v`: the map stays sorted, gains `key` (one entry more only if it was absent), maps `key` to `v` and leaves every other key's value alone |
| ColumnMap.PutAll | Source/DataLogger.cpp:185-187 | assigning names in turn keeps the map sorted, its keys become the old keys plus the new names, and distinct fresh names add one entry each |
| ColumnMap.SortedAscending | Source/DataLogger.cpp:143-144 | iterating the map visits its keys in strictly ascending `std::string` order |
| ColumnMap.SortedDistinct | Source/DataLogger.cpp:143-144 | the map never holds a name twice |
| ColumnNames.Clamp | Source/DataLogger.cpp:201-202 | a limit of 0, or beyond the dimension, means the whole dimension; any other limit is kept |
| ColumnNames.Cells | Source/DataLogger.cpp:190-194 | the nested loops visit `rows * cols` cells, all inside the matrix, none twice |
| ColumnNames.IndexColumns | Source/DataLogger.cpp:185-187 | column `k` is `name(k)` showing coefficient `(k, 0)` |
| ColumnNames.CellColumns | Source/DataLogger.cpp:190-194 | the column for each visited cell is `name(k, l)` showing coefficient `(k, l)` |
| ColumnNames.VectorColumns | Source/DataLogger.cpp:210-214 | columns `2k` and `2k+1` are `name_k.re` and `name_k.im` showing row `k`'s real and imaginary part |
| ColumnNames.GridColumns | Source/DataLogger.cpp:217-224 | each visited cell gives two columns `name_k_l.re` and `name_k_l.im` |
| ColumnNames.RealMatrixColumnsShape | Source/DataLogger.cpp:181-195 | the real-matrix expansion has one, `rows` or `rows * cols` columns by shape, all with distinct names |
| ColumnNames.ComplexMatrixColumnsShape | Source/DataLogger.cpp:201-225 | the complex-matrix expansion has two columns per kept coefficient by shape, all with distinct names |
| ColumnNames.ReIsNotIm | Source/DataLogger.cpp:173-174 | a `.re` name never equals a `.im` name |
| ColumnNames.IndexNameInjective | Source/DataLogger.cpp:186 | `name(k)` determines `k` |
| ColumnNames.CellNameInjective | Source/DataLogger.cpp:192 | `name(k, l)` determines `k` and `l` |
| ColumnNames.VectorBaseInjective | Source/DataLogger.cpp:212-213 | `name_k` determines `k` |
| ColumnNames.GridBaseInjective | Source/DataLogger.cpp:219-222 | `name_k_l` determines `k` and `l` |
| ColumnNames.PhasorNodeNamesDistinct | Source/DataLogger.cpp:111-117 | the phasor node names are pairwise distinct, and for an even row count rows `i` and `i + n/2` are the real and imaginary part of node `i` |
| ColumnNames.EmtNodeNamesDistinct | Source/DataLogger.cpp:127-130 | the EMT node names are pairwise distinct |
| ColumnNames.SplitAtSeparator | Source/DataLogger.cpp:192 | a number printed before a non-digit separator can be split back off unambiguously |
| Decimal.ToDecimalShape | Source/DataLogger.cpp:186 | `std::to_string` of a natural is a non-empty digit string without a leading zero |
| Decimal.DecimalRoundTrip | Source/DataLogger.cpp:186 | reading back the printed digits gives the number |
| Decimal.ToDecimalInjective | Source/DataLogger.cpp:186 | distinct numbers print differently |
| Decimal.Padded5Shape | Source/DataLogger.cpp:114 | `setfill('0') << setw(5)` prints at least five digits: zero-padded to five when `std::to_string` gives fewer, the plain digits otherwise |
| Decimal.Padded5Width | Source/DataLogger.cpp:114 | the padded form has exactly five digits precisely for the numbers below 100000 |
| Decimal.Padded5RoundTrip | Source/DataLogger.cpp:114 | reading back the padded digits gives the number |
| Decimal.Padded5Injective | Source/DataLogger.cpp:129 | distinct node numbers print differently |

## Left out

- Logging.DataLogger.Log and Logging.LogHeaderOrdered: `DataLogger.h`,
  which declares `mAttributes`, is not part of this model. The model takes
  it to be a `std::map<String, ...>`, so columns are written in ascending
  name order. The system's design describes them as appearing in
  registration order; with an insertion-ordered container the header order
  proved here would not hold.
- CoSimInterface.Snapshots, CoSimInterface.Interface.PushToQueue and
  CoSimInterface.Receive: the tables hold attributes by value, not as
  shared `AttributeBase::Ptr`s. The simulation's writes to an exported
  attribute are not modelled, so a snapshot carries the value stored at
  registration. A value copied onto one import is not seen by other table
  entries for the same attribute.
- CoSimInterface.Interface.PreStepExecute, CoSimInterface.Interface.PostStepExecute
  and Logging.DataLogger.Log require a downsampling factor above 0. With a
  factor of 0 the C++ `%` divides by zero, which is undefined behaviour.
- The reader and writer threads, `join`, and the interface worker are not
  modelled. Neither are the worker's `open`, `close`, `readValuesFromEnv`
  and `writeValuesToEnv`. What the reader would have put into the inbound
  queue is the queue's content. The writer loop takes the queue contents it
  finds at each wait as a parameter and returns the batches it hands over.
- `ReaderThread::operator()` (`dpsim/src/Interface.cpp:167-176`) is not
  modelled: it only moves worker output into the inbound queue.
- `setLogger` and the warning and error messages are not modelled. The
  `std::exit(1)` on late configuration is the `FatalConfigError` status.
- A blocking dequeue on an empty queue waits for the reader. The model
  stops there and reports `blocked` instead.
- `Interface.h` is not part of this model. The initial values of the two
  global sequence counters are constructor parameters. So is the
  downsampling factor.
- The import sequence ids use one global next-expected counter,
  `mNextSequenceInterfaceToDpsim`, as the code has it. This is not a
  counter per attribute. Every dequeued packet resets it.
- CoSimInterface.PushAdvances: the strictly increasing ids are proved only
  when the stored ids start below the counter, that is, when the counter
  starts above 0. The counter's initial value is not shown.
- CoSimInterface.Receive: the source indexes the import table unchecked, so
  a packet naming a missing import is undefined behaviour. The methods
  require every queued packet to name an existing import. The function
  ignores other packets only to be total.
- CoSimInterface.Interface.PreStepExecute: the step count is a natural.
  A negative `Int` step count, which C++ converts to unsigned before `%`,
  is not modelled. The same holds for `PostStepExecute` and
  `Logging.DataLogger.Log`.
- The global counters and the step count are unbounded. The wrap-around of
  `UInt` and `Int` after 2^32 steps is not modelled.
- CoSimInterface.WriterLoop: the worker receives `attrsToWrite` by
  reference, and the shown code never clears it. Whether the worker empties
  it is the `sinkClears` parameter.
- CoSimInterface.WriterLoop: each round is non-empty, because the blocking
  dequeue waits for a packet. A run that waits forever ends with
  `closed == false`.
- Attribute values are a closed sum of the handled kinds. Matrix
  coefficients are not modelled: only a matrix's shape matters here.
  `cloneValueOntoNewAttribute` is a snapshot of the value. `copyValue`'s
  body is not part of this model; it is taken as "store the value if it is
  present and of the same type".
- `Logging.DataLogger.Log`: an attribute's `toString()` is the `render`
  parameter. The derived attributes (`real()`, `imag()`, `coeff`,
  `coeffReal`, `coeffImag`) are named by what they show, not evaluated.
- File handling is not modelled: the file name, directory creation, the
  destructor and the `std::cerr` message. Whether the file opens is a
  constructor parameter. The stream state is a flag, and "the put position
  is 0" is "the stream is good and nothing has been written".
- Column widths, alignment and scientific notation are not modelled. Cells
  hold values or rendered text.
- A matrix is a sequence of rows. `logDataLine` reads column 0 of every row,
  so the matrix methods require each row to have a column.
- `Logging.DataLogger.AddAttribute` registers a complex matrix with row and
  column limits 0, the default arguments in `DataLogger.h`. That header is
  not part of this model.
- `DataLogger::Step::execute` only calls `log`, and `getTask` only wraps it.
  Neither is modelled separately.
