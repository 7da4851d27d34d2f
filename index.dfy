/**
 * The front controller's naming rule (`index.php`): the controller named in
 * the URL, say `users`, is served by the class `UsersController`.
 */
module Index {
  import opened PhpString

  const ControllerSuffix := "Controller"

  /**
   * `getControllerClassName`: the name with its first byte upper-cased, then
   * `Controller`. An empty name gives just `Controller`.
   */
  function ControllerClassName(controllerName: string): (r: string)
    ensures |r| == |controllerName| + |ControllerSuffix|
    ensures r[|controllerName|..] == ControllerSuffix
    ensures controllerName != [] ==> r[0] == UpperChar(controllerName[0])
    ensures forall i :: 1 <= i < |controllerName| ==> r[i] == controllerName[i]
  {
    var cut := if controllerName == [] then 0 else 1;
    ToUpper(controllerName[..cut]) + controllerName[cut..] + ControllerSuffix
  }

  /** The URL name `users` selects `UsersController`. */
  lemma UsersController(controllerName: string)
    requires controllerName == "users"
    ensures ControllerClassName(controllerName) == "UsersController"
  {
    assert ToUpper("u") == "U";
    assert controllerName[..1] == "u" && controllerName[1..] == "sers";
  }

  /** A name that already starts with an upper-case letter or a non-letter is kept as it is. */
  lemma ControllerClassNameKeepsUpper(controllerName: string)
    requires controllerName != [] && !('a' <= controllerName[0] <= 'z')
    ensures ControllerClassName(controllerName) == controllerName + ControllerSuffix
  {
    var r := ControllerClassName(controllerName);
    assert r[0] == controllerName[0];
    assert r == controllerName + ControllerSuffix by {
      forall i | 0 <= i < |r| ensures r[i] == (controllerName + ControllerSuffix)[i] {
        if i >= |controllerName| {
          assert r[i] == r[|controllerName|..][i - |controllerName|];
        }
      }
    }
  }
}
