/**
 * The docker registry setting of dockerHelper.js: one piece of module state,
 * set once from the command line and read by every renderer that names an image.
 */
module Registry {
  import opened Wrappers
  import opened Text

  const HttpSchemeError := "Docker registry url should NOT include http(s):// at the beginning"

  /** removeTrailingSlash drops one trailing '/' (pathUtils is not part of this model). */
  function RemoveTrailingSlash(s: string): (r: string)
    ensures r == s || r + "/" == s
    ensures r == s <==> s == [] || s[|s| - 1] != '/'
  {
    if |s| > 0 && s[|s| - 1] == '/' then s[..|s| - 1] else s
  }

  /**
   * The value setDockerRegistry stores for its argument, or the error it throws.
   * None stands for a missing (undefined or null) argument.
   */
  function NormalizeRegistry(registry: Option<string>): (r: Result<string, string>)
    ensures registry == None || registry == Some("") ==> r == Success("")
    ensures registry.Some? && registry.value != "" ==>
              (r.Failure? <==> StartsWith(registry.value, "http"))
    ensures r.Failure? ==> r.error == HttpSchemeError
    ensures registry.Some? && registry.value != "" && !StartsWith(registry.value, "http") ==>
              r == Success(RemoveTrailingSlash(registry.value) + "/")
    ensures r.Success? && r.value != "" ==> r.value[|r.value| - 1] == '/'
  {
    match registry
    case None => Success("")
    case Some(s) =>
      if s == "" then Success("")
      else if StartsWith(s, "http") then Failure(HttpSchemeError)
      else Success(RemoveTrailingSlash(s) + "/")
  }

  /** A registry without a trailing slash gets exactly one appended. */
  lemma NormalizeAppendsSlash(s: string)
    requires s != "" && !StartsWith(s, "http") && s[|s| - 1] != '/'
    ensures NormalizeRegistry(Some(s)) == Success(s + "/")
  {
  }

  /**
   * A registry that already ends in '/' is stored as it is; with two trailing slashes both
   * stay, since only one is removed before one is appended.
   */
  lemma NormalizeKeepsTrailingSlash(t: string)
    requires t != "" && !StartsWith(t, "http") && t[|t| - 1] == '/'
    ensures NormalizeRegistry(Some(t)) == Success(t)
    ensures NormalizeRegistry(Some(t + "/")) == Success(t + "/")
  {
    var u := t + "/";
    assert u[..|u| - 1] == t;
    if |t| >= 4 {
      assert u[..4] == t[..4];
    } else {
      assert |u| < 4 || u[3] == '/';
    }
  }

  /** Storing a stored value again leaves it unchanged. */
  lemma NormalizeIdempotent(registry: Option<string>)
    requires NormalizeRegistry(registry).Success?
    ensures NormalizeRegistry(Some(NormalizeRegistry(registry).value)) == NormalizeRegistry(registry)
  {
    var v := NormalizeRegistry(registry).value;
    if v != "" {
      var s := registry.value;
      var t := RemoveTrailingSlash(s);
      assert v == t + "/";
      assert RemoveTrailingSlash(v) == t;
      if |t| >= 4 {
        assert v[..4] == t[..4] == s[..4];
      } else {
        assert v[|t|] == '/';
      }
    }
  }

  /** The text `${getDockerRegistry()}` interpolates: a registry that was never set reads as undefined. */
  function RegistryText(stored: Option<string>): string
  {
    match stored
    case None => "undefined"
    case Some(s) => s
  }

  /** The module-level DOCKER_REGISTRY variable and its setter and getter. */
  class DockerRegistry {
    /** The stored value; None until setDockerRegistry is first called. */
    var stored: Option<string>

    constructor ()
      ensures stored == None
    {
      stored := None;
    }

    /** setDockerRegistry: stores the normalised registry, or fails and keeps the old value. */
    method Set(registry: Option<string>) returns (outcome: Result<(), string>)
      modifies this
      ensures outcome.Failure? <==> NormalizeRegistry(registry).Failure?
      ensures outcome.Failure? ==> outcome.error == HttpSchemeError && stored == old(stored)
      ensures outcome.Success? ==> stored == Some(NormalizeRegistry(registry).value)
    {
      if registry == None || registry.value == "" {
        stored := Some("");
        return Success(());
      }
      if StartsWith(registry.value, "http") {
        return Failure(HttpSchemeError);
      }
      stored := Some(RemoveTrailingSlash(registry.value) + "/");
      return Success(());
    }

    /** getDockerRegistry: the last stored value. */
    method Get() returns (value: Option<string>)
      ensures value == stored
    {
      value := stored;
    }
  }
}
