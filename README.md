# Verified model of the `train_a.py` command-line wrapper

`train_a.py` is the command-line front end of a CNN training script. It parses
the options, merges them into the hyper-parameter defaults (`h_params` of the
`model_cnn` module), and hands the result to data preparation, a Weights &
Biases run and the training loop. This project models the wrapper's two
self-contained pieces of logic and proves what they promise:

- `str2bool`, the tolerant boolean validator used as the argparse converter
  for `--data_augumentation` and `--batch_normalization`
  (module `BoolArg`, file `bool_arg.dfy`; its ASCII lowering is in module
  `Ascii`, file `ascii.dfy`);
- `merge_cli_into_hparams`, which copies the defaults, overwrites every
  default key the parsed namespace also has, and then injects the two
  dataset paths (module `HParams`, file `hparams.dfy`).

The parsed `argparse.Namespace` is modelled as a `map<string, V>` from
attribute name to value: `hasattr(cli, k)` is `k in cli` and
`getattr(cli, k)` is `cli[k]`. The defaults are a `map<string, V>` with the
same opaque value type `V`, since the merge never inspects a value.
`ArgumentTypeError("Boolean value expected.")` is the `Err` case of a
`Result` datatype.

`MergeCliIntoHparams` is written as the source runs it: a loop over the
default keys that overwrites entries of a local map, followed by a map union
for `dict.update`. It is proved equal to `Merged`, an entry-by-entry
definition of the merged configuration, and the key-set, override, identity
and path-injection laws are proved about `Merged`.

## Model

| member | source | states |
|---|---|---|
| `Ascii.LowerChar` | train_a.py:50 | lowering one character: an ASCII capital becomes the small letter at the same alphabet position, every other character is unchanged, and the result is never a capital |
| `Ascii.ToLower` | train_a.py:50 | `v.lower()` (ASCII only): same length as the input, each character lowered |
| `Ascii.ToLowerIdempotent` | train_a.py:50-52 | lowering an already lowered string changes nothing |
| `Ascii.SameIgnoringCaseIff` | train_a.py:50-53 | two characters are equal, or a capital and its small letter, exactly when they lower to the same character |
| `Ascii.EqualIgnoringCaseIff` | train_a.py:50-53 | two strings have equal lower-case forms exactly when they agree character by character up to letter case |
| `BoolArg.LoweredInIff` | train_a.py:50-53 | for lower-case words, `v.lower() in words` holds exactly when `v` matches one of the words up to letter case |
| `BoolArg.Str2Bool` | train_a.py:48-54 | true exactly when the input is yes/true/t/1 in any letter case; false exactly when it is no/false/f/0 in any letter case (and not a true word); the boolean-expected error exactly when it is neither |
| `BoolArg.TrueAndFalseWordsDisjoint` | train_a.py:50-53 | no input matches both a true word and a false word, so every input gets exactly one outcome |
| `BoolArg.Str2BoolFalseIff` | train_a.py:52-53 | the result is false exactly when the input is no/false/f/0 in any letter case |
| `BoolArg.Str2BoolOfLowered` | train_a.py:50-53 | `str2bool(v) == str2bool(v.lower())` |
| `BoolArg.Str2BoolIgnoresCase` | train_a.py:50-53 | two inputs equal up to letter case get the same outcome |
| `BoolArg.Str2BoolAcceptsMixedCase` | train_a.py:50-53 | "YES", "True", "T" give true; "No", "FALSE", "F" give false |
| `BoolArg.Str2BoolRejectsNearMisses` | train_a.py:50-54 | "y", "on", " true" and the empty string are rejected with the boolean-expected error |
| `HParams.MergeCliIntoHparams` | train_a.py:94-106 | the copy, the overwrite loop over the default keys and the path update produce exactly the merged configuration `Merged` |
| `HParams.MergedKeys` | train_a.py:96-104 | the result's keys are the default keys plus `train_dir` and `val_dir` |
| `HParams.MergedDropsUnknownAttributes` | train_a.py:99-101 | a namespace attribute that is not a default key and not a path (such as `wandb_project`) is not in the result |
| `HParams.MergedOverrides` | train_a.py:99-101 | a default key the namespace has holds the command-line value |
| `HParams.MergedKeepsDefault` | train_a.py:96-101 | a default key the namespace lacks keeps its default value |
| `HParams.MergedInjectsPaths` | train_a.py:104 | `train_dir` and `val_dir` hold the command-line paths, even where the defaults had other values under those keys |

## Left out

- `Ascii.ToLower`: lowers only the ASCII capitals, while Python's `str.lower` is Unicode-aware. The outcome of `str2bool` is unaffected as far as the Unicode tables go: the only non-ASCII characters that lower to ASCII letters are the Kelvin sign (to `k`) and the dotted capital I (to `i` plus a combining dot), and neither `k` nor `i` occurs in the eight accepted words. This argument is not proved in the model.
- `HParams.MergeCliIntoHparams`: leaving `default_hparams` unchanged is not stated as a postcondition. Maps are values in Dafny, so the method cannot alter the caller's defaults; the shallow copy at train_a.py:96 is what gives the Python code the same guarantee. Aliasing of the value objects is not modelled.
- `HParams.MergeCliIntoHparams`: iterates the default keys in an arbitrary order rather than dict insertion order; the result does not depend on the order.
- `HParams.MergeCliIntoHparams`: requires that the namespace has `train_dir` and `val_dir`. The source would raise `AttributeError` without them, and its parser declares both options `required=True`, so every namespace it builds has them.
- `build_arg_parser` (train_a.py:57-91): a configuration of the argparse library; parsing, `choices`, `nargs="+"`, required-option checks and usage/exit behaviour live in library code.
- `main` (train_a.py:112-127): JSON printing, `wandb.login()` and the calls to `prepare_data`, `_init_wandb_run` and `train` are I/O and calls into `model_cnn`, which is not part of this model.
- The import-error handler (train_a.py:30-42) and the `KeyboardInterrupt` handler with exit status 130 (train_a.py:130-136): process-level I/O and signal handling.
- Value types (floats, integers, lists of integers, booleans, strings): values are an opaque type parameter because the merge never inspects them.
- Inputs are Dafny strings, whose characters are Unicode scalar values; Python argument strings can also hold lone surrogates (U+DC80 to U+DCFF, from undecodable bytes). `str2bool` rejects every such string, since none of the accepted words contains one, so no outcome is lost.
