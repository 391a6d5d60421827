# GPU-compatibility check for hosted notebooks

The notebook demos run two start-up scripts. Both decide whether the session's
accelerator can run the GPU data-processing toolkit.

- `utils/colab-gpu-check.py` reads the GPU query tool's console output and takes
  the device name from words 2 and 3 of line 7. Then `colab_gpu_check` classifies
  that name. A Tesla K80 is rejected first, with its own error. A name equal to an
  entry of the compatible list succeeds. Any other name raises the "unknown
  allocation" error, which shows the name.
- `utils/colab_env.py` asks the GPU management library for the name of device 0.
  The name is a byte string. If that lookup fails, the script raises the
  "configure Colab to request a GPU" error. Otherwise it applies the same K80 /
  allow-list / unknown decision against the fixed list
  `[b'Tesla P100-PCIE-16GB', b'Tesla T4']`.

The project has four modules:

- `Outcomes` (`outcomes.dfy`): the `Verdict` datatype. It has one tag for how a
  check ends: `Compatible`, `NoGpu`, `K80Allocated`, `Unknown(name)` or
  `UndefinedName(ident)`. The module also has `Option` and `Result`.
- `PyText` (`pytext.dfy`): the Python behaviour the extraction relies on.
  `Split` is `str.split()` with no argument, using Python's full set of
  whitespace characters. `Join` is `sep.join`. `Slice` is list slicing `xs[lo:hi]`
  with clamped bounds.
- `GpuCheck` (`gpu_check.dfy`): `pull_gpu_id`, `colab_gpu_check` and the script's
  entry point.
- `ColabEnv` (`colab_env.dfy`): the library lookup and the byte-string
  classification.

Inputs from outside the program are parameters:

- the query tool's output is a `seq<string>` of lines;
- the library's answer is an `Nvml` value: whether it initialises, and the devices
  it can report, each with an optional name.

## Model

| member | source | states |
|---|---|---|
| PyText.IsSpace | utils/colab-gpu-check.py:11 | the characters `str.split()` with no argument splits on: Python's `str.isspace` set (TAB to CR, FS to US, space, NEL, NO-BREAK SPACE and the Unicode space separators) |
| PyText.Split | utils/colab-gpu-check.py:11 | `str.split()` returns only non-empty words that contain no whitespace |
| PyText.SplitKeepsNonSpace | utils/colab-gpu-check.py:11 | splitting drops exactly the whitespace: concatenating the words gives every non-whitespace character of the line, in order |
| PyText.SplitAtSpace | utils/colab-gpu-check.py:11 | a whitespace character separates the words on its left from those on its right |
| PyText.SplitCollapsesSpace | utils/colab-gpu-check.py:11 | a run of whitespace acts as a single separator |
| PyText.Join | utils/colab-gpu-check.py:11 | `' '.join(parts)`: the parts in order with the separator between neighbours. `PyText.SplitJoin` pins it: a space-joined list of words splits back into the same words |
| PyText.SplitJoin | utils/colab-gpu-check.py:11 | joining words with one space and splitting again gives back the same words |
| PyText.SplitAtGap | utils/colab-gpu-check.py:11 | a run of whitespace of any length separates the words on its left from those on its right |
| PyText.SplitPadJoin | utils/colab-gpu-check.py:11 | words separated by whitespace runs of any lengths split back into the same words |
| PyText.Slice | utils/colab-gpu-check.py:11 | `words[2:4]` has the clamped length and holds element `2+i` at position `i`; a short list gives a short or empty slice, never an error |
| GpuCheck.PullGpuId | utils/colab-gpu-check.py:7-17 | it fails, with the NO GPU DETECTED error, exactly when the output has no line 7. Otherwise the name's words are words 2 and 3 of line 7. The name is empty exactly when line 7 has at most two words. With exactly three words it is word 2 itself. With four or more words it is word 2, one space, word 3 |
| GpuCheck.ShortLineYieldsPartialName | utils/colab-gpu-check.py:11-12 | every line 7 with exactly three words is not an error and yields exactly the word at index 2 |
| GpuCheck.ScanForMatch | utils/colab-gpu-check.py:32-36 | the loop over the compatible list finds a match exactly when the name is an element of the list |
| GpuCheck.ColabGpuCheck | utils/colab-gpu-check.py:20-40 | `Tesla K80` gives the K80 error for every list, even one that contains it. Any other name succeeds exactly when it equals a list element. An unlisted name gives `Unknown` carrying that name. The check never reports a missing GPU |
| GpuCheck.SameMembersSameVerdict | utils/colab-gpu-check.py:32-36 | the verdict depends only on which names the list contains |
| GpuCheck.ReorderSameVerdict | utils/colab-gpu-check.py:32-36 | a reordered list gives the same verdict |
| GpuCheck.DuplicateSameVerdict | utils/colab-gpu-check.py:32-36 | repeating an entry of the list gives the same verdict |
| GpuCheck.EmptyListAlwaysRaises | utils/colab-gpu-check.py:25-40 | with an empty list every name raises; none succeeds |
| GpuCheck.NameMatchesWords | utils/colab-gpu-check.py:11 | an extracted name equals a two-word name spelt `a b` exactly when its words are `a` and `b` |
| GpuCheck.KnownNamesByWords | utils/colab-gpu-check.py:45 | an extracted name is in the entry point's list exactly when its words are `Tesla T4` or `Tesla P100-PCIE...`; it is the K80 exactly when its words are `Tesla K80` |
| GpuCheck.CheckInstance | utils/colab-gpu-check.py:43-49 | the entry point reports no GPU exactly when there is no line 7. It succeeds exactly when words 2 and 3 of line 7 are `Tesla T4` or `Tesla P100-PCIE...`. It gives the K80 error exactly when they are `Tesla K80`. It never ends in a NameError. An unknown verdict carries those words joined by one space |
| GpuCheck.DeviceRowNameWords | utils/colab-gpu-check.py:11 | the query tool's device row has eleven words: four bar characters delimiting the column groups, the GPU index, `Tesla`, the model, the persistence mode, the bus id, the display-active flag and the ECC count. For any one-word values of those six columns and any whitespace padding between the words, words 2 and 3 of the row are `Tesla` and the model |
| GpuCheck.VerdictOfModel | utils/colab-gpu-check.py:43-49 | once words 2 and 3 of line 7 are `Tesla` and a model: `T4` and `P100-PCIE...` pass, `K80` gets the K80 error, and any other model is unknown under the name `Tesla <model>` |
| GpuCheck.DeviceRowVerdict | utils/colab-gpu-check.py:7-49 | the entry point on such a device row, for any column values and any padding: a T4 or an abbreviated P100 passes, a K80 gets the K80 error, and any other model is unknown under the name `Tesla <model>` |
| ColabEnv.Ascii | utils/colab_env.py:23-29 | a `b'...'` literal has one byte per character, each equal to the character's ASCII code |
| ColabEnv.LookupGpuName | utils/colab_env.py:11-21 | the name is found exactly when the library initialises, device 0 exists and its name can be read; then it is that device's name. Any failed step gives the "configure GPU" error |
| ColabEnv.ClassifyAsWritten | utils/colab_env.py:22-37 | as written: `b'Tesla K80'` gives the K80 error. Success happens exactly for the two listed byte strings, compared exactly. Every other name ends in a NameError on `my_gpu` and never in the message naming the device |
| ColabEnv.Classify | utils/colab_env.py:22-37 | as intended: the same K80 and success cases. The unknown error happens exactly for a name that is neither the K80 nor listed, and it carries that name |
| ColabEnv.EnvScriptAsWritten | utils/colab_env.py:11-37 | the script as written: a failed lookup is the "configure GPU" error, before any classification. It succeeds exactly when the looked-up name is listed. A K80 gets the K80 error. The NameError happens exactly when the looked-up name is neither the K80 nor listed. It never reports an unknown device by name |
| ColabEnv.EnvScript | utils/colab_env.py:11-37 | the script as intended: the same lookup failure, K80 and success cases. The unknown error happens exactly when the looked-up name is neither the K80 nor listed, and it carries that name. It never ends in a NameError |
| ColabEnv.ChecksDoNotConflict | utils/colab_env.py:23-31 | `b'Tesla K80'` is not on the compatible list, so checking the list before the K80 gives the same verdict for every name |
| ColabEnv.AsWrittenDiffersOnlyOnUnknown | utils/colab_env.py:35-37 | the as-written and intended scripts agree on every input except an unlisted device. There, the as-written script raises the NameError |
| ColabEnv.V100ShowsUndefinedName | utils/colab_env.py:35-37 | for `b'Tesla V100-SXM2-16GB'`, the as-written classification raises the NameError and the intended one reports the V100 |
| ColabEnv.SessionExamples | utils/colab_env.py:11-33 | a session whose device 0 is a T4 succeeds. A library that does not initialise, or reports no device, gives the "configure GPU" error |

## Left out

- `utils/set_paths.py`: it extends the import path, sets two environment variables, starts two helper processes, imports a client library and sleeps. This is process and environment plumbing with no decision logic.
- Running the GPU query tool (the `!nvidia-smi` shell escape, `utils/colab-gpu-check.py:7`) and the library calls (`utils/colab_env.py:13-16`): these are hardware I/O. They are inputs here: the output lines, and an `Nvml` value.
- The printing and exact wording of messages: outcomes are `Verdict` tags. The only payload kept is the device name in the unknown-device error. On success, `colab_gpu_check` returns a message string; the model returns `Compatible`.
- Whether the library returns `bytes` or `str`: names are compared as opaque byte sequences.
- The bare `except:` in `pull_gpu_id` would also catch an interrupt raised during extraction. Asynchronous interrupts are not modelled. The only failure that can arise from the extraction itself is the missing line 7.

## Findings

| source | as written | input that shows it | evidently intended | confidence | as-written member | corrected member |
|---|---|---|---|---|---|---|
| utils/colab_env.py:37 | the unknown-device message interpolates `my_gpu`, which this script never defines (the name is in `gpu_name`), so the script raises a NameError instead of its message | a device named `b'Tesla V100-SXM2-16GB'` | raise the "unknown allocation" error naming the device, as `utils/colab-gpu-check.py:39` does | high; not executed | ColabEnv.ClassifyAsWritten | ColabEnv.Classify |

Under this finding, `ColabEnv.EnvScriptAsWritten` and `ColabEnv.V100ShowsUndefinedName` exhibit the as-written behaviour. `ColabEnv.EnvScript` uses the corrected classification. The sibling check in `utils/colab-gpu-check.py:39-40` raises the same "achieved wizardy" message built from the name it has in hand, which is what the corrected member does.
