# rrdtool_cffi binding logic, modelled in Dafny

`rrdtool_cffi` is a thin cffi binding that exposes librrd's `create`,
`update`, `fetch`, `first`, `last` and `info` entry points to Python. The
round-robin storage engine lives in the native library and is not part of
this model. The model covers the marshalling the binding does itself:

- `Args` models `_prepare_args`. It builds the argv-style token list: the
  command name first, then every argument. A tuple or list argument
  (`Group`) is spliced in one level deep. Anything else (`Tok`) is one token.
- `Doubles` models the NaN-to-`None` rule. A native `double` is either `NaN`
  (RRD's "unknown") or a known value `Num`.
- `FetchReply` models the body of `fetch` after the native call. The flat,
  row-major buffer of `rows × ds_count` doubles becomes `rows` rows of width
  `ds_count`, with `rows = (stop - start) // step`. The result also carries
  the `(start, stop, step)` triple and the data-source names in native order.
- `InfoChain` models `_convert_info`. It walks the chain of
  `(key, tag, union value)` records into a dictionary. A later record with
  the same key overwrites an earlier one.
- `Binding` models the wrappers and `_get_error`. `Library` holds librrd's
  last-error slot as a field. Each wrapper raises `error` exactly when the
  native call returns `-1` (or a null chain for `info`). It reads the
  message and clears the slot.

The native entry points are method parameters: functions from the token
list to what the native call returns. `Fetch` and `Info` take a
`requires` saying what librrd guarantees about a successful reply (`step > 0`,
enough samples and names, every blob has `size` bytes). The wrappers do not
model librrd writing its error message. Instead, the slot's content when a
wrapper starts stands for the message the failed native call left there.

Python's `//` with a positive divisor rounds down, which is what Dafny's `/`
does for a positive divisor. A negative row count (`stop < start`) makes the
source's loop run zero times; `FetchReply.RowCount` returns 0 in that case.

## Model

| member | source | states |
|---|---|---|
| Args.PrepareArgs | rrdtool_cffi.py:176-185 | the token list is the command name followed by the expansion of every argument, in argument order; its length is 1 plus the sum of the contributions, and its first token is the command name |
| Args.ExpandAppend | rrdtool_cffi.py:178-183 | expanding two argument lists one after the other gives the concatenation of their expansions, so each argument's tokens stay in argument order |
| Args.ExpandLength | rrdtool_cffi.py:178-183 | the number of tokens is the sum of the contributions: one per plain argument, the element count per tuple or list |
| Args.ExpandSplit | rrdtool_cffi.py:178-183 | the tokens of the arguments before position k come first, then exactly argument k's contribution, then the tokens of the arguments after it |
| Args.ExpandAt | rrdtool_cffi.py:180-183 | element m of argument k's contribution sits at index (tokens of arguments before k) + m of the expansion |
| Args.ExpandToks | rrdtool_cffi.py:182-183 | arguments that are all plain tokens expand to exactly themselves |
| Args.GroupIsSpliced | rrdtool_cffi.py:180-181 | a tuple or list argument yields the same tokens as writing its items out as separate plain arguments at that position |
| Args.CreateWithListsTokens | tests.py:38-52 | the list-valued `create` call of the test suite yields the command name followed by the six argument tokens of tests.py:39-50; `create(())` yields only the command name |
| Doubles.ToOptional | rrdtool_cffi.py:127 | the result is `None` exactly when the sample is NaN, and a known sample is returned unchanged |
| Doubles.OptionalRoundTrip | rrdtool_cffi.py:127 | NaN-to-`None` conversion is undone by mapping `None` back to NaN, in both directions |
| Doubles.OptionalsRoundTrip | rrdtool_cffi.py:122-128 | converting a whole buffer loses no sample: converting back restores it |
| FetchReply.RowCount | rrdtool_cffi.py:119-122 | the row count n is the floor quotient, n·step ≤ stop − start < (n+1)·step; a reversed range gives 0 rows |
| FetchReply.ReshapedRows | rrdtool_cffi.py:119-128 | the reshaped result has exactly `rows` rows, and row i is the i-th run of `width` samples, converted |
| FetchReply.ReshapedAt | rrdtool_cffi.py:121-127 | entry j of row i is the flat-buffer sample at index i·ds_count + j, NaN turned into `None`; every row has width ds_count |
| FetchReply.ReshapedUnique | rrdtool_cffi.py:119-128 | any table with `rows` rows of width ds_count whose entries are the converted samples at i·ds_count + j is the reshaped result |
| FetchReply.FlattenReshaped | rrdtool_cffi.py:121-128 | reading the rows back in order gives exactly the first rows·ds_count samples converted; mapping `None` back to NaN restores the buffer prefix |
| FetchReply.AllUnknown | rrdtool_cffi.py:127 | a buffer holding only NaN reshapes into rows of `None` only |
| FetchReply.Reshape | rrdtool_cffi.py:119-128 | the running index equals i·ds_count + j before each read and never exceeds rows·ds_count, so every read is in bounds; the nested loop returns `rows` rows of width ds_count whose entry (i, j) is the converted sample i·ds_count + j; it equals the reference reshaping |
| FetchReply.CollectNames | rrdtool_cffi.py:130-132 | the names list has exactly ds_count entries, the native names in native order |
| FetchReply.ConvertFetch | rrdtool_cffi.py:118-137 | the result is the native `(start, stop, step)` triple, the ds_count names, and the reshaped rows; rows count and widths as above |
| FetchReply.FetchAllNoneFixture | tests.py:63-85 | the range (1368278970, 1368279180, 10) with two data sources and an all-NaN buffer gives 21 rows of `(None, None)` and names `('a', 'b')` |
| InfoChain.ConvertValue | rrdtool_cffi.py:198-210 | each tag gives the value of the matching kind and only that kind: VAL its sample with NaN turned into `None`, CNT and INT the record's own integer, STR its own string, BLO a copy of exactly `size` bytes |
| InfoChain.InfoMapKeys | rrdtool_cffi.py:196-213 | a key is in the dictionary exactly when some record in the chain carries it |
| InfoChain.InfoMapLastWins | rrdtool_cffi.py:212 | a key's value is the converted value of the last record carrying that key |
| InfoChain.ConvertInfo | rrdtool_cffi.py:194-215 | walking the chain to its end yields the reference dictionary, whose key set is exactly the records' keys |
| Binding.Library.GetError | rrdtool_cffi.py:188-191 | the raised error carries the slot's message, and the slot is empty afterwards |
| Binding.Library.Create | rrdtool_cffi.py:81-85 | raises exactly when `rrd_create` on the prepared tokens returns -1, with the slot's message, clearing it; otherwise the slot is untouched |
| Binding.Library.Update | rrdtool_cffi.py:88-92 | raises exactly when `rrd_update` on the prepared tokens returns -1, with the slot's message, clearing it; otherwise the slot is untouched |
| Binding.Library.Fetch | rrdtool_cffi.py:95-137 | raises exactly when `rrd_fetch` returns -1; otherwise returns the reshaped reply |
| Binding.Library.First | rrdtool_cffi.py:145-151 | raises exactly when `rrd_first` returns -1; otherwise returns the native timestamp |
| Binding.Library.Last | rrdtool_cffi.py:154-160 | raises exactly when `rrd_last` returns -1; otherwise returns the native timestamp |
| Binding.Library.Info | rrdtool_cffi.py:163-173 | raises exactly when `rrd_info` returns a null chain; otherwise returns the converted dictionary |
| Binding.CreateWithError | tests.py:54-56 | `create(())` against a library that rejects it raises with the library's message and leaves the error slot empty |

## Left out

- The round-robin storage engine (archives, consolidation, heartbeat, the meaning of `first` and `last`): it is native code that the binding loads with `dlopen`. The values in tests.py that come from it cannot be derived from the binding.
- The native calls `rrd_create`, `rrd_update`, `rrd_fetch`, `rrd_first`, `rrd_last` and `rrd_info` are foreign code. They are parameters of the wrappers. How librrd fills its error slot is represented by the slot's content when a wrapper starts.
- The process-wide lock `_global_lock` and the `_syncronize` decorator: their purpose is concurrency, which the model does not have.
- cffi memory handling: the `ffi.new` allocations, `rrd_freemem` and `rrd_info_free` in the `finally` blocks, and ASCII encoding and decoding of strings. Tokens and keys are already-decoded strings. A token that is not ASCII, an argument that is neither a string nor a tuple or list, or a tuple or list item that is not a string, raises a Python error during encoding; that is not modelled.
- Floating point: a `double` is either NaN or a known value `Num(real)`. Infinities and exact IEEE values are not distinguished from other known values.
- C integer widths (`long int`, `unsigned long`, `int`) are not modelled: the binding copies them into unbounded Python integers.
- FetchReply.RowCount: requires `step > 0`. With step 0 the source raises `ZeroDivisionError`; librrd never returns step 0.
- InfoChain.ConvertValue: the tag and the union member form one datatype with five cases, as in the `rrd_info_type` enum. A tag outside the enum would make the source reuse the previous record's value or fail with an unbound name; that case cannot be expressed.
- The record chain is a finite sequence walked by position. Pointer identity and cycles in the `next` chain are not modelled.
- Binding.Library.Info: accepts an empty record chain as a successful reply. librrd never returns a non-null chain without records, so that input does not arise; for it the model returns the empty dictionary.
- Binding.Library.GetError: the message is a decoded string. The source wraps the raw bytes that `ffi.string` returns without decoding them.
