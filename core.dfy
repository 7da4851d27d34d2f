/**
 * The framework core (`core/ViewManager.php`, `core/I18n.php`).
 *
 * `ViewManager` holds the view variables, the session's flash array (values
 * that survive one redirect and vanish once read) and the layout fragments:
 * view output collects in an output buffer, and moving to another fragment
 * appends the buffer to the current fragment and empties it.
 *
 * `I18n` holds the message table of the current language and translates
 * keys, falling back to the key itself.
 *
 * The PHP session is a field of each object here: the flash array
 * (`viewmanager__flasharray__`) of the view manager and the current-language
 * entry (`__currentlang__`) of the translator; a new object built from the
 * session left by an earlier one models the next request.
 */
module Core {
  import opened Wrappers

  // ----------------------------------------------------------------------
  // ViewManager

  /**
   * A value handed to the views: NULL, a string, or some other array or
   * object, identified by reference. `isset` is false for NULL.
   */
  datatype Value = Null | Text(text: string) | Object(ref: nat)

  /** `isset($a[$k])`: the key is present and its value is not NULL. */
  predicate IsSet(a: map<string, Value>, k: string) {
    k in a && a[k] != Null
  }

  const DefaultFragment := "__default__"
  const DefaultLayout := "default"
  const FlashMessageKey := "__flashmessage__"

  class ViewManager {
    /** Accumulated contents per fragment. */
    var fragmentContents: map<string, string>
    /** The view variables of this request. */
    var variables: map<string, Value>
    /** The fragment the output buffer belongs to. */
    var currentFragment: string
    var layout: string
    /** The output buffer: what the views have printed since the last save. */
    var buffer: string
    /** The session's flash array. */
    var sessionFlash: map<string, Value>

    /** A request's view manager: nothing printed yet, default fragment and layout, the session's flash array. */
    constructor (sessionFlash: map<string, Value>)
      ensures fragmentContents == map[] && variables == map[] && buffer == ""
      ensures currentFragment == DefaultFragment && layout == DefaultLayout
      ensures this.sessionFlash == sessionFlash
    {
      fragmentContents := map[];
      variables := map[];
      currentFragment := DefaultFragment;
      layout := DefaultLayout;
      buffer := "";
      this.sessionFlash := sessionFlash;
    }

    /** A view prints `text`: it goes to the output buffer. */
    method Write(text: string)
      modifies this`buffer
      ensures buffer == old(buffer) + text
    {
      buffer := buffer + text;
    }

    /** The contents saved for `fragment`, or `default` when nothing was ever saved there. */
    function GetFragment(fragment: string, default: string := ""): (r: string)
      reads this
      ensures fragment !in fragmentContents ==> r == default
      ensures fragment in fragmentContents ==> r == fragmentContents[fragment]
    {
      if fragment in fragmentContents then fragmentContents[fragment] else default
    }

    /** Appends the buffer to the current fragment (an unsaved fragment starts empty) and empties the buffer. */
    method SaveCurrentFragment()
      modifies this`fragmentContents, this`buffer
      ensures fragmentContents == old(fragmentContents)[currentFragment := old(GetFragment(currentFragment)) + old(buffer)]
      ensures buffer == ""
    {
      fragmentContents := fragmentContents[currentFragment := GetFragment(currentFragment) + buffer];
      buffer := "";
    }

    /** Saves the pending output into the current fragment, then makes `name` current. Other fragments are untouched. */
    method MoveToFragment(name: string)
      modifies this`fragmentContents, this`buffer, this`currentFragment
      ensures fragmentContents == old(fragmentContents)[old(currentFragment) := old(GetFragment(currentFragment)) + old(buffer)]
      ensures buffer == "" && currentFragment == name
    {
      SaveCurrentFragment();
      currentFragment := name;
    }

    method MoveToDefaultFragment()
      modifies this`fragmentContents, this`buffer, this`currentFragment
      ensures fragmentContents == old(fragmentContents)[old(currentFragment) := old(GetFragment(currentFragment)) + old(buffer)]
      ensures buffer == "" && currentFragment == DefaultFragment
    {
      MoveToFragment(DefaultFragment);
    }

    /** Sets a view variable; with `flash` it is also kept in the session's flash array for the next request. */
    method SetVariable(varname: string, value: Value, flash: bool := false)
      modifies this`variables, this`sessionFlash
      ensures variables == old(variables)[varname := value]
      ensures flash ==> sessionFlash == old(sessionFlash)[varname := value]
      ensures !flash ==> sessionFlash == old(sessionFlash)
    {
      variables := variables[varname := value];
      if flash {
        sessionFlash := sessionFlash[varname := value];
      }
    }

    /**
     * Reads a variable: a (non-NULL) view variable first; else a flash value,
     * which is removed from the session as it is read; else `default`.
     */
    method GetVariable(varname: string, default: Value := Null) returns (r: Value)
      modifies this`sessionFlash
      ensures IsSet(variables, varname) ==> r == variables[varname] && sessionFlash == old(sessionFlash)
      ensures !IsSet(variables, varname) && IsSet(old(sessionFlash), varname) ==>
        r == old(sessionFlash)[varname] && sessionFlash == old(sessionFlash) - {varname}
      ensures !IsSet(variables, varname) && !IsSet(old(sessionFlash), varname) ==>
        r == default && sessionFlash == old(sessionFlash)
    {
      if !IsSet(variables, varname) {
        if IsSet(sessionFlash, varname) {
          r := sessionFlash[varname];
          sessionFlash := sessionFlash - {varname};
          return r;
        }
        return default;
      }
      return variables[varname];
    }

    /** Stores the flash message, as a view variable and in the session. */
    method SetFlash(message: string)
      modifies this`variables, this`sessionFlash
      ensures variables == old(variables)[FlashMessageKey := Text(message)]
      ensures sessionFlash == old(sessionFlash)[FlashMessageKey := Text(message)]
    {
      SetVariable(FlashMessageKey, Text(message), true);
    }

    /** Reads the flash message (popping it from the session when it comes from there); the empty string when there is none. */
    method PopFlash() returns (r: Value)
      modifies this`sessionFlash
      ensures IsSet(variables, FlashMessageKey) ==> r == variables[FlashMessageKey] && sessionFlash == old(sessionFlash)
      ensures !IsSet(variables, FlashMessageKey) && IsSet(old(sessionFlash), FlashMessageKey) ==>
        r == old(sessionFlash)[FlashMessageKey] && sessionFlash == old(sessionFlash) - {FlashMessageKey}
      ensures !IsSet(variables, FlashMessageKey) && !IsSet(old(sessionFlash), FlashMessageKey) ==>
        r == Text("") && sessionFlash == old(sessionFlash)
    {
      r := GetVariable(FlashMessageKey, Text(""));
    }

    method SetLayout(layout: string)
      modifies this`layout
      ensures this.layout == layout
    {
      this.layout := layout;
    }
  }

  /** A variable that was set to a non-NULL value reads back as that value, and the session is left alone. */
  method SetThenGet(vm: ViewManager, varname: string, value: Value, default: Value) returns (r: Value)
    requires value != Null
    modifies vm
    ensures r == value
    ensures vm.sessionFlash == old(vm.sessionFlash)
  {
    vm.SetVariable(varname, value);
    r := vm.GetVariable(varname, default);
  }

  /** A variable set to NULL is not `isset`: reading it falls through to the flash array or the default. */
  method SetNullThenGet(vm: ViewManager, varname: string, default: Value) returns (r: Value)
    requires !IsSet(vm.sessionFlash, varname)
    modifies vm
    ensures r == default
  {
    vm.SetVariable(varname, Null);
    r := vm.GetVariable(varname, default);
  }

  /** A flash value is read once: the first read returns it, the second the default. */
  method FlashReadOnce(vm: ViewManager, varname: string, default: Value) returns (first: Value, second: Value)
    requires !IsSet(vm.variables, varname) && IsSet(vm.sessionFlash, varname)
    modifies vm
    ensures first == old(vm.sessionFlash[varname])
    ensures second == default
    ensures vm.sessionFlash == old(vm.sessionFlash) - {varname}
  {
    first := vm.GetVariable(varname, default);
    second := vm.GetVariable(varname, default);
  }

  /**
   * A flash message set before a redirect is still in the session after it
   * has been read in the same request (it was read from the view variables),
   * and the next request pops it exactly once.
   */
  method FlashAcrossRedirect(message: string) returns (sameRequest: Value, nextRequest: Value, again: Value)
    ensures sameRequest == Text(message)
    ensures nextRequest == Text(message)
    ensures again == Text("")
  {
    var vm := new ViewManager(map[]);
    vm.SetFlash(message);
    sameRequest := vm.PopFlash();
    var next := new ViewManager(vm.sessionFlash);
    nextRequest := next.PopFlash();
    again := next.PopFlash();
  }

  /** Output before and after a fragment switch lands in the two fragments; an unused fragment yields its default. */
  method FragmentsCollectOutput(main: string, css: string) returns (mainContents: string, cssContents: string, other: string)
    ensures mainContents == main && cssContents == css && other == "none"
  {
    var vm := new ViewManager(map[]);
    vm.Write(main);
    vm.MoveToFragment("css");
    vm.Write(css);
    vm.MoveToDefaultFragment();
    mainContents := vm.GetFragment(DefaultFragment);
    cssContents := vm.GetFragment("css");
    other := vm.GetFragment("javascript", "none");
  }

  // ----------------------------------------------------------------------
  // I18n

  const DefaultLanguage := "es"

  /**
   * What including a language's message file leaves in `$i18n_messages`:
   * its table, or NULL when the file does not exist.
   */
  function LanguageTable(catalog: map<string, map<string, string>>, language: string): (table: Option<map<string, string>>)
    ensures table.Some? <==> language in catalog
    ensures table.Some? ==> table.value == catalog[language]
  {
    if language in catalog then Some(catalog[language]) else None
  }

  class I18n {
    /** The message files, by language. */
    const catalog: map<string, map<string, string>>
    /** The current language's table; `None` when its file was missing. */
    var messages: Option<map<string, string>>
    /** The session's current-language entry. */
    var sessionLanguage: Option<string>

    /** Loads the session's language if it has one, else Spanish. */
    constructor (catalog: map<string, map<string, string>>, sessionLanguage: Option<string>)
      ensures this.catalog == catalog
      ensures sessionLanguage.Some? ==> this.sessionLanguage == sessionLanguage && messages == LanguageTable(catalog, sessionLanguage.value)
      ensures sessionLanguage.None? ==> this.sessionLanguage == Some(DefaultLanguage) && messages == LanguageTable(catalog, DefaultLanguage)
    {
      this.catalog := catalog;
      new;
      if sessionLanguage.Some? {
        SetLanguage(sessionLanguage.value);
      } else {
        SetLanguage(DefaultLanguage);
      }
    }

    /** Loads `language`'s table and records the language in the session. */
    method SetLanguage(language: string)
      modifies this`messages, this`sessionLanguage
      ensures messages == LanguageTable(catalog, language)
      ensures sessionLanguage == Some(language)
    {
      messages := LanguageTable(catalog, language);
      sessionLanguage := Some(language);
    }

    /** `i18n($key)`: the current table's translation, or the key itself when there is none (or no table). */
    function Translate(key: string): (r: string)
      reads this
      ensures messages.Some? && key in messages.value ==> r == messages.value[key]
      ensures messages.None? || key !in messages.value ==> r == key
    {
      if messages.Some? && key in messages.value then messages.value[key] else key
    }

    function GetAllMessages(): (r: Option<map<string, string>>)
      reads this
      ensures r == messages
    {
      messages
    }
  }

  /** After switching language, keys translate through the new language's table, and other keys come back unchanged. */
  method TranslateAfterSwitch(t: I18n, language: string, key: string) returns (r: string)
    modifies t
    ensures language in t.catalog && key in t.catalog[language] ==> r == t.catalog[language][key]
    ensures language !in t.catalog || key !in t.catalog[language] ==> r == key
    ensures t.sessionLanguage == Some(language)
  {
    t.SetLanguage(language);
    r := t.Translate(key);
  }

  /** The language survives into the next request: a translator built from the session keeps the chosen table. */
  method LanguageSurvivesRequest(catalog: map<string, map<string, string>>, language: string) returns (next: I18n)
    ensures next.messages == LanguageTable(catalog, language)
  {
    var first := new I18n(catalog, None);
    first.SetLanguage(language);
    next := new I18n(catalog, first.sessionLanguage);
  }
}
