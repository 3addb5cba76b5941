/**
 * Composer's configuration object, as far as the plugin reads it.
 */
module ComposerConfig {
  import opened Php

  /** The merged Composer configuration: top-level key to value. */
  datatype Config = Config(entries: map<string, PhpValue>)

  /** `$config->get($key)` for a key Composer does not post-process: the
      stored value, or null when there is none. */
  function Get(config: Config, key: string): (v: PhpValue)
    ensures key in config.entries ==> v == config.entries[key]
    ensures IsSet(v) ==> key in config.entries
  {
    if key in config.entries then config.entries[key] else PNull
  }
}
