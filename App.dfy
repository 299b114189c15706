/**
 * The playground component's own state rules: restoring language and code from session storage,
 * loading an example, picking an example by title, and resetting the status before a run.
 * The wallet actions App.tsx repeats are those of the wallet hook.
 */
module App {
  import opened JsValues
  import opened CodeExecutor

  /** The value `sessionStorage.getItem(key)` gives, or a throw of the storage itself. */
  datatype StorageRead = Stored(value: Option<string>) | StorageThrew

  /** `sessionStorage.getItem(key)` on an available storage: null when the key is absent. */
  function Lookup(storage: map<string, string>, key: string): (r: Option<string>)
    ensures r.Some? <==> key in storage
    ensures r.Some? ==> r.value == storage[key]
  {
    if key in storage then Some(storage[key]) else None
  }

  /** The string a language is stored as. */
  function Name(l: Language): string {
    match l
    case JavaScript => "javascript"
    case TypeScript => "typescript"
  }

  /** The language initializer: the saved value if it names a language, 'typescript' otherwise and on a storage error. */
  function InitialLanguage(read: StorageRead): (l: Language)
    ensures l == JavaScript <==> read == Stored(Some("javascript"))
  {
    match read
    case Stored(Some(saved)) =>
      if saved == "javascript" then JavaScript
      else if saved == "typescript" then TypeScript
      else TypeScript
    case Stored(None) => TypeScript
    case StorageThrew => TypeScript
  }

  /** A stored language name is restored as that language. */
  lemma LanguageRoundTrip(l: Language)
    ensures InitialLanguage(Stored(Some(Name(l)))) == l
  {
  }

  /** The code initializer: any saved string, even the empty one; '' when nothing is saved. */
  function InitialCode(saved: Option<string>): (c: string)
    ensures saved.Some? ==> c == saved.value
    ensures saved.None? ==> c == ""
  {
    saved.GetOr("")
  }

  datatype Example = Example(title: string, language: Language, code: string)

  /** `examples.find((ex) => ex.title === title)`: the first example with that title, if any. */
  function FindExample(examples: seq<Example>, title: string): (r: Option<Example>)
    ensures r.None? <==> forall i :: 0 <= i < |examples| ==> examples[i].title != title
    ensures r.Some? ==> exists i :: && 0 <= i < |examples| && examples[i] == r.value && r.value.title == title
                                    && forall j :: 0 <= j < i ==> examples[j].title != title
  {
    if examples == [] then None
    else if examples[0].title == title then Some(examples[0])
    else
      var r := FindExample(examples[1..], title);
      assert forall i :: 0 < i < |examples| ==> examples[i] == examples[1..][i - 1];
      r
  }

  /** The storage writes of `handleLoadExample`. */
  function Persist(storage: map<string, string>, ex: Example): (r: map<string, string>)
    ensures "code" in r && r["code"] == ex.code
    ensures "language" in r && r["language"] == Name(ex.language)
    ensures r.Keys == storage.Keys + {"code", "language"}
    ensures forall k :: k in storage && k != "code" && k != "language" ==> r[k] == storage[k]
  {
    storage["code" := ex.code]["language" := Name(ex.language)]
  }

  /** The language-save effect after loading an example writes what the load already persisted. */
  lemma LanguageSaveAfterLoad(storage: map<string, string>, ex: Example)
    ensures Persist(storage, ex)["language" := Name(ex.language)] == Persist(storage, ex)
  {
  }

  /** What `handleLoadExample` persists is what the initializers restore on the next load. */
  lemma PersistRestores(storage: map<string, string>, ex: Example)
    ensures InitialLanguage(Stored(Lookup(Persist(storage, ex), "language"))) == ex.language
    ensures InitialCode(Lookup(Persist(storage, ex), "code")) == ex.code
  {
    LanguageRoundTrip(ex.language);
  }

  datatype ExecutionStatus = Success | Error

  /** The component's state that these rules touch. */
  class Playground {
    var language: Language
    var code: string
    var executionStatus: Option<ExecutionStatus>
    /** sessionStorage. */
    var storage: map<string, string>
    /** consoleOutput and its setter. */
    const console: ConsoleView

    /** The initial render: language and code restored from an available session storage. */
    constructor (stored: map<string, string>)
      ensures language == InitialLanguage(Stored(Lookup(stored, "language")))
      ensures code == InitialCode(Lookup(stored, "code"))
      ensures executionStatus == None && storage == stored
      ensures fresh(console) && console.output == "" && console.history == []
    {
      language := InitialLanguage(Stored(Lookup(stored, "language")));
      code := InitialCode(Lookup(stored, "code"));
      executionStatus := None;
      storage := stored;
      console := new ConsoleView();
    }

    /** The effect that saves the language to session storage after the first render and after every change of language. */
    method SaveLanguage()
      modifies this
      ensures storage == old(storage)["language" := Name(language)]
      ensures language == old(language) && code == old(code) && executionStatus == old(executionStatus)
    {
      storage := storage["language" := Name(language)];
    }

    /** `handleLoadExample(example)`. */
    method HandleLoadExample(ex: Example)
      modifies this, console
      ensures code == ex.code && language == ex.language && executionStatus == None
      ensures storage == Persist(old(storage), ex)
      ensures console.output == "" && console.history == old(console.history) + [""]
    {
      code := ex.code;
      language := ex.language;
      console.Set("");
      executionStatus := None;
      storage := storage["code" := ex.code];
      storage := storage["language" := Name(ex.language)];
    }

    /** The example selector's `onChange`: load the first example with the chosen title, if there is one. */
    method OnExampleSelected(examples: seq<Example>, value: string)
      modifies this, console
      ensures FindExample(examples, value).None? ==>
        && language == old(language) && code == old(code) && executionStatus == old(executionStatus)
        && storage == old(storage) && console.output == old(console.output) && console.history == old(console.history)
      ensures FindExample(examples, value).Some? ==>
        var ex := FindExample(examples, value).value;
        && ex.title == value
        && code == ex.code && language == ex.language && executionStatus == None
        && storage == Persist(old(storage), ex)
        && console.output == "" && console.history == old(console.history) + [""]
    {
      var selected := FindExample(examples, value);
      if selected.Some? {
        HandleLoadExample(selected.value);
      }
    }

    /** `handleExecuteCode`: the status is reset, then the current language and code run. */
    method HandleExecuteCode(containerReady: bool, compile: string -> CompileFetch, container: Container)
      modifies this, console
      ensures executionStatus == None
      ensures language == old(language) && code == old(code) && storage == old(storage)
      ensures console.history == old(console.history) + Shown(language, code, containerReady, compile, container)
      ensures var d := Shown(language, code, containerReady, compile, container); console.output == d[|d| - 1]
    {
      executionStatus := None;
      var ran, fetched := ExecuteCode(language, code, console, containerReady, compile, container);
    }
  }
}
