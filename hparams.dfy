/**
 Merging the parsed command line into the hyper-parameter defaults
 (`merge_cli_into_hparams`, train_a.py:94-106).

 The parsed `argparse.Namespace` is a map from attribute name to value, so
 `hasattr(cli, k)` is `k in cli` and `getattr(cli, k)` is `cli[k]`. The
 defaults (`model_cnn.h_params`) are a map with the same opaque value type:
 the merge never looks at a value.
 */
module HParams {

  const TrainDir: string := "train_dir"
  const ValDir: string := "val_dir"

  /** What `cli.train_dir` and `cli.val_dir` need: the parser declares both
      options `required=True`, so every namespace it returns has them. */
  predicate HasPaths<V>(cli: map<string, V>) {
    TrainDir in cli && ValDir in cli
  }

  /** The merged configuration, entry by entry: the default keys plus the two
      path keys, each holding the command-line value when the namespace has
      that attribute and the default otherwise. */
  function Merged<V>(defaults: map<string, V>, cli: map<string, V>): map<string, V>
    requires HasPaths(cli)
  {
    map k | k in defaults.Keys + {TrainDir, ValDir} ::
      if k in cli then cli[k] else defaults[k]
  }

  /** `merge_cli_into_hparams`: copy the defaults, overwrite every default key
      the namespace also has, then `update` with the two dataset paths. */
  method MergeCliIntoHparams<V>(defaults: map<string, V>, cli: map<string, V>)
    returns (params: map<string, V>)
    requires HasPaths(cli)
    ensures params == Merged(defaults, cli)
  {
    params := defaults;
    var pending := defaults.Keys;
    while pending != {}
      invariant pending <= defaults.Keys
      invariant params.Keys == defaults.Keys
      invariant forall k :: k in params ==>
        params[k] == if k !in pending && k in cli then cli[k] else defaults[k]
      decreases pending
    {
      var k :| k in pending;
      if k in cli {
        params := params[k := cli[k]];
      }
      pending := pending - {k};
    }
    params := params + map[TrainDir := cli[TrainDir], ValDir := cli[ValDir]];
  }

  /** The merged keys are exactly the default keys plus the two path keys. */
  lemma MergedKeys<V>(defaults: map<string, V>, cli: map<string, V>)
    requires HasPaths(cli)
    ensures Merged(defaults, cli).Keys == defaults.Keys + {TrainDir, ValDir}
  {
  }

  /** An attribute of the namespace that is not a default key (such as
      `wandb_project`) does not reach the configuration, unless it is a path. */
  lemma MergedDropsUnknownAttributes<V>(defaults: map<string, V>, cli: map<string, V>, k: string)
    requires HasPaths(cli)
    requires k in cli && k !in defaults && k != TrainDir && k != ValDir
    ensures k !in Merged(defaults, cli)
  {
  }

  /** Override law: a default key the namespace has takes the command-line value. */
  lemma MergedOverrides<V>(defaults: map<string, V>, cli: map<string, V>, k: string)
    requires HasPaths(cli)
    requires k in defaults && k in cli
    ensures Merged(defaults, cli)[k] == cli[k]
  {
  }

  /** Identity law: a default key the namespace lacks keeps its default. */
  lemma MergedKeepsDefault<V>(defaults: map<string, V>, cli: map<string, V>, k: string)
    requires HasPaths(cli)
    requires k in defaults && k !in cli
    ensures Merged(defaults, cli)[k] == defaults[k]
  {
  }

  /** Path injection: the two paths come from the command line, whatever the
      defaults held under those keys. */
  lemma MergedInjectsPaths<V>(defaults: map<string, V>, cli: map<string, V>)
    requires HasPaths(cli)
    ensures Merged(defaults, cli)[TrainDir] == cli[TrainDir]
    ensures Merged(defaults, cli)[ValDir] == cli[ValDir]
  {
  }
}
