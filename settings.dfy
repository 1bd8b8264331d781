/**
  The process-wide configuration and the handlers that change it:
  `save_api_key`, `add_model` and `remove_model`. Each change is written to
  `config.json` at once, so what the file holds always loads back to what is in
  memory.
 */
module Settings {
  import opened Wrappers
  import opened ConfigStore

  const KeySaved := "API key saved successfully!"
  const KeyCleared := "API key cleared."
  const InvalidModel := "Please enter a valid model name."
  const LastModel := "Cannot remove the last model."

  /** No model name appears twice. */
  predicate NoDuplicates(s: seq<string>) {
    forall i, j :: 0 <= i < j < |s| ==> s[i] != s[j]
  }

  /** Index of the first occurrence of `x`. */
  function IndexOf(s: seq<string>, x: string): (i: nat)
    requires x in s
    ensures i < |s| && s[i] == x
    ensures forall j :: 0 <= j < i ==> s[j] != x
  {
    if s[0] == x then 0 else 1 + IndexOf(s[1..], x)
  }

  /** Python's `list.remove(x)` on a list that holds `x`, and the list unchanged otherwise. */
  function RemoveFirst(s: seq<string>, x: string): (r: seq<string>)
    ensures x !in s ==> r == s
    ensures x in s ==> r == s[..IndexOf(s, x)] + s[IndexOf(s, x) + 1..]
  {
    if s == [] then []
    else if s[0] == x then s[1..]
    else
      var t := s[1..];
      var r := [s[0]] + RemoveFirst(t, x);
      assert x in s ==> s[..IndexOf(s, x)] == [s[0]] + t[..IndexOf(t, x)] && s[IndexOf(s, x) + 1..] == t[IndexOf(t, x) + 1..];
      r
  }

  /** Removing a name the list holds takes out exactly one copy of it. */
  lemma RemoveFirstCount(s: seq<string>, x: string)
    requires x in s
    ensures |RemoveFirst(s, x)| == |s| - 1
    ensures multiset(RemoveFirst(s, x)) == multiset(s) - multiset{x}
  {
    var i := IndexOf(s, x);
    var front, back := s[..i], s[i + 1..];
    assert s == front + [x] + back;
    assert RemoveFirst(s, x) == front + back;
    assert multiset(s) == multiset(front) + multiset{x} + multiset(back);
  }

  /** Removing from a list without duplicates keeps it so, and takes the name out entirely. */
  lemma RemoveKeepsNoDuplicates(s: seq<string>, x: string)
    requires NoDuplicates(s)
    ensures NoDuplicates(RemoveFirst(s, x))
    ensures x !in RemoveFirst(s, x)
  {
    if x in s {
      var i := IndexOf(s, x);
      var r := RemoveFirst(s, x);
      assert |r| == |s| - 1;
      assert forall k :: 0 <= k < i ==> r[k] == s[k];
      assert forall k :: i <= k < |r| ==> r[k] == s[k + 1];
      forall a, b | 0 <= a < b < |r| ensures r[a] != r[b] {
        var a' := if a < i then a else a + 1;
        var b' := if b < i then b else b + 1;
        assert a' < b' < |s|;
        assert r[a] == s[a'] && r[b] == s[b'];
      }
      forall k | 0 <= k < |r| ensures r[k] != x {
        var k' := if k < i then k else k + 1;
        assert r[k] == s[k'];
        assert k' != i;
      }
    }
  }

  /** Appending a name the list does not hold keeps it free of duplicates. */
  lemma AppendKeepsNoDuplicates(s: seq<string>, x: string)
    requires NoDuplicates(s) && x !in s
    ensures NoDuplicates(s + [x])
  {
  }

  /** The status `save_api_key` reports. */
  function ApiKeyStatus(apiKey: string, success: bool): (status: string)
    ensures status == KeySaved <==> apiKey != "" && success
    ensures status == KeySaved || status == KeyCleared
  {
    if apiKey != "" && success then KeySaved else KeyCleared
  }

  /** The global `config` together with the file it is saved to. */
  class App {
    var config: Config
    var file: Stored
    const cipher: Cipher

    ghost predicate Valid()
      reads this
    {
      && HasModels(config)
      && RoundTrips(cipher)
      && Load(file, cipher) == config
    }

    function Models(): seq<string>
      reads this
      requires HasModels(config)
    {
      config.models.value
    }

    /** `config = load_config()` at start-up. */
    constructor (stored: Stored, cipher: Cipher)
      requires RoundTrips(cipher)
      ensures Valid()
      ensures config == Load(stored, cipher) && file == stored && this.cipher == cipher
    {
      this.cipher := cipher;
      config := Load(stored, cipher);
      file := stored;
    }

    /** `save_config(config)`: writes the encrypted copy; the in-memory config keeps its plaintext key. */
    method SaveConfig() returns (success: bool)
      requires HasModels(config) && RoundTrips(cipher)
      modifies this`file
      ensures file == Document(Save(config, cipher)) && success
      ensures Valid()
    {
      file := Document(Save(config, cipher));
      LoadSave(config, cipher);
      success := true;
    }

    /** `save_api_key`. */
    method SaveApiKey(apiKey: string) returns (status: string)
      requires Valid()
      modifies this`config, this`file
      ensures Valid()
      ensures config == old(config).(apiKey := Some(apiKey))
      ensures file == Document(Save(config, cipher))
      ensures status == ApiKeyStatus(apiKey, true)
    {
      config := config.(apiKey := Some(apiKey));
      var success := SaveConfig();
      status := ApiKeyStatus(apiKey, success);
    }

    /**
      `add_model`: the dropdown's choices, the value it selects (`None`: the
      selection is not set) and the status message.
     */
    method AddModel(name: string) returns (choices: seq<string>, selection: Option<string>, status: string)
      requires Valid()
      modifies this`config, this`file
      ensures Valid()
      ensures choices == Models()
      ensures name != "" && name !in old(Models()) ==>
        && config == old(config).(models := Some(old(Models()) + [name]))
        && file == Document(Save(config, cipher))
        && selection == Some(name) && status == "Model " + name + " added!"
      ensures name in old(Models()) ==>
        && config == old(config) && file == old(file)
        && selection == Some(name) && status == "Model " + name + " already exists."
      ensures name == "" && name !in old(Models()) ==>
        config == old(config) && file == old(file) && selection == None && status == InvalidModel
      ensures NoDuplicates(old(Models())) ==> NoDuplicates(Models())
      ensures old(Models()) <= Models() && |Models()| <= |old(Models())| + 1
    {
      if name != "" && name !in Models() {
        ghost var before := Models();
        config := config.(models := Some(Models() + [name]));
        var success := SaveConfig();
        if NoDuplicates(before) {
          AppendKeepsNoDuplicates(before, name);
        }
        choices, selection, status := Models(), Some(name), "Model " + name + " added!";
      } else if name in Models() {
        choices, selection, status := Models(), Some(name), "Model " + name + " already exists.";
      } else {
        choices, selection, status := Models(), None, InvalidModel;
      }
    }

    /**
      `remove_model`: removes the first occurrence of the name unless it is the
      only model left; then the first remaining model is selected.
     */
    method RemoveModel(name: string) returns (choices: seq<string>, selection: Option<string>, status: string)
      requires Valid()
      modifies this`config, this`file
      ensures Valid()
      ensures choices == Models()
      ensures name in old(Models()) && |old(Models())| > 1 ==>
        && config == old(config).(models := Some(RemoveFirst(old(Models()), name)))
        && file == Document(Save(config, cipher))
        && selection == Some(Models()[0]) && status == "Model " + name + " removed!"
      ensures |old(Models())| <= 1 ==>
        config == old(config) && file == old(file) && selection == None && status == LastModel
      ensures name !in old(Models()) && |old(Models())| > 1 ==>
        && config == old(config) && file == old(file)
        && selection == None && status == "Model " + name + " not found."
      ensures NoDuplicates(old(Models())) ==> NoDuplicates(Models())
      ensures NoDuplicates(old(Models())) && |old(Models())| > 1 ==> name !in Models()
      ensures |Models()| >= |old(Models())| - 1
    {
      if name in Models() && |Models()| > 1 {
        ghost var before := Models();
        config := config.(models := Some(RemoveFirst(Models(), name)));
        var success := SaveConfig();
        if NoDuplicates(before) {
          RemoveKeepsNoDuplicates(before, name);
        }
        choices, selection, status := Models(), Some(Models()[0]), "Model " + name + " removed!";
      } else if |Models()| <= 1 {
        choices, selection, status := Models(), None, LastModel;
      } else {
        choices, selection, status := Models(), None, "Model " + name + " not found.";
      }
    }
  }
}
