/**
  `load_config` and `save_config`: the configuration document as it is read from
  and written to `config.json`, with the API key encrypted at rest.

  File reading, JSON parsing and writing are abstracted: what the file holds is a
  `Stored` value, and saving yields the document that is written. The Fernet key
  of the installation is a `Cipher`: encryption, and a decryption that may fail.
 */
module ConfigStore {
  import opened Wrappers

  const DefaultModels: seq<string> := ["openai/gpt-3.5-turbo", "anthropic/claude-3-haiku"]

  /**
    The configuration dictionary: `api_key` and `models` when present, and every
    other key (such as `conversations`) with its JSON value kept as opaque text.
   */
  datatype Config = Config(apiKey: Option<string>, models: Option<seq<string>>, others: map<string, string>)

  /** What `config.json` holds: nothing, something that cannot be read or parsed as a dictionary, or a dictionary. */
  datatype Stored = Absent | Unreadable | Document(config: Config)

  /** The installation's key: encryption, and decryption that fails (`None`) on foreign or corrupt text. */
  datatype Cipher = Cipher(encrypt: string -> string, decrypt: string -> Option<string>)

  /** Decryption undoes encryption, and a token is never empty (Fernet tokens are not). */
  ghost predicate RoundTrips(cipher: Cipher) {
    forall k :: k != "" ==> cipher.encrypt(k) != "" && cipher.decrypt(cipher.encrypt(k)) == Some(k)
  }

  /** The configuration used when there is no readable file. */
  const DefaultConfig := Config(Some(""), Some(DefaultModels), map["conversations" := "[]"])

  /** The `models` entry is present and not empty. */
  predicate HasModels(c: Config) {
    c.models.Some? && c.models.value != []
  }

  /** The plaintext of a stored key, or `""` when it does not decrypt. */
  function DecryptOrEmpty(cipher: Cipher, token: string): string {
    match cipher.decrypt(token)
    case Some(plain) => plain
    case None => ""
  }

  /** `load_config`. */
  function Load(stored: Stored, cipher: Cipher): (c: Config)
    ensures HasModels(c)
    ensures !stored.Document? ==> c == DefaultConfig
    ensures stored.Document? ==> c.others == stored.config.others
    ensures stored.Document? && HasModels(stored.config) ==> c.models == stored.config.models
    ensures stored.Document? && !HasModels(stored.config) ==> c.models == Some(DefaultModels)
    ensures stored.Document? && !Truthy(stored.config.apiKey) ==> c.apiKey == stored.config.apiKey
    ensures stored.Document? && Truthy(stored.config.apiKey) && cipher.decrypt(stored.config.apiKey.value).None? ==>
      c.apiKey == Some("")
    ensures stored.Document? && Truthy(stored.config.apiKey) && cipher.decrypt(stored.config.apiKey.value).Some? ==>
      c.apiKey == cipher.decrypt(stored.config.apiKey.value)
  {
    match stored
    case Absent => DefaultConfig
    case Unreadable => DefaultConfig
    case Document(read) =>
      var withKey := if Truthy(read.apiKey) then read.(apiKey := Some(DecryptOrEmpty(cipher, read.apiKey.value))) else read;
      if HasModels(withKey) then withKey else withKey.(models := Some(DefaultModels))
  }

  /** `save_config`: the document written is a copy of `c` whose key, when truthy, is encrypted. */
  function Save(c: Config, cipher: Cipher): (written: Config)
    ensures written.models == c.models && written.others == c.others
    ensures Truthy(c.apiKey) ==> written.apiKey == Some(cipher.encrypt(c.apiKey.value))
    ensures !Truthy(c.apiKey) ==> written.apiKey == c.apiKey
  {
    if Truthy(c.apiKey) then c.(apiKey := Some(cipher.encrypt(c.apiKey.value))) else c
  }

  /** What was saved loads back as it was: the key in plaintext, the models and the other entries. */
  lemma LoadSave(c: Config, cipher: Cipher)
    requires RoundTrips(cipher)
    requires HasModels(c)
    ensures Load(Document(Save(c, cipher)), cipher) == c
  {
    if Truthy(c.apiKey) {
      assert cipher.decrypt(cipher.encrypt(c.apiKey.value)) == Some(c.apiKey.value);
    }
  }

  /** Loading what a load produced, once saved, changes nothing: the normalisation is stable. */
  lemma LoadIsStable(stored: Stored, cipher: Cipher)
    requires RoundTrips(cipher)
    ensures Load(Document(Save(Load(stored, cipher), cipher)), cipher) == Load(stored, cipher)
  {
    LoadSave(Load(stored, cipher), cipher);
  }
}
