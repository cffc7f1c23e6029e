/** The API contract shared by the back end and the front end: path
    templates with `:key` placeholders, `buildUrl`, the accepted languages
    and the profile-update rules. The two copies of the contract hold the
    same `buildUrl`, so one model stands for both. */
module ApiRoutes {
  import opened Wrappers
  import opened Text

  /** The languages the run and submit inputs accept. */
  predicate AcceptedLanguage(language: string) {
    language in {"python", "c", "cpp"}
  }

  /** A parameter value: a string or an integer. */
  datatype ParamValue = Str(s: string) | Num(n: int)

  /** `String(value)`. */
  function ValueText(v: ParamValue): string {
    match v
    case Str(s) => s
    case Num(n) => IntToString(n)
  }

  /** The placeholder `":" + key`. */
  function Placeholder(key: string): (p: string)
    ensures |p| == |key| + 1 && p[0] == ':' && p[1..] == key
  {
    ":" + key
  }

  lemma NoColonNoPlaceholder(url: string, key: string)
    ensures ':' !in url ==> !Includes(url, Placeholder(key))
  {
    if Includes(url, Placeholder(key)) {
      var i := IndexOf(url, Placeholder(key)).value;
      assert url[i] == url[i..i + |key| + 1][0] == ':';
    }
  }

  /** One step of the `forEach` in `buildUrl`: when the placeholder occurs,
      its first occurrence is replaced by `String(value)`; otherwise the url
      is left as it is. */
  function SubstituteOne(url: string, key: string, value: ParamValue): (r: string)
    ensures !Includes(url, Placeholder(key)) ==> r == url
    ensures ':' !in url ==> r == url
    ensures Includes(url, Placeholder(key)) && '$' !in ValueText(value) ==>
              var i := IndexOf(url, Placeholder(key)).value;
              r == url[..i] + ValueText(value) + url[i + |key| + 1..]
  {
    NoColonNoPlaceholder(url, key);
    if Includes(url, Placeholder(key)) then ReplaceFirst(url, Placeholder(key), ValueText(value)) else url
  }

  /** The url after the parameters have been applied in order (the order of
      `Object.entries`). A path with no `:` is returned unchanged. */
  function Substitute(url: string, params: seq<(string, ParamValue)>): (r: string)
    ensures ':' !in url ==> r == url
  {
    if params == [] then url
    else
      var last := params[|params| - 1];
      SubstituteOne(Substitute(url, params[..|params| - 1]), last.0, last.1)
  }

  /** `buildUrl(path, params)`. */
  method BuildUrl(path: string, params: Option<seq<(string, ParamValue)>>) returns (url: string)
    ensures params.None? ==> url == path
    ensures params.Some? ==> url == Substitute(path, params.value)
  {
    url := path;
    if params.Some? {
      var entries := params.value;
      for k := 0 to |entries|
        invariant url == Substitute(path, entries[..k])
      {
        var (key, value) := entries[k];
        assert Substitute(path, entries[..k + 1]) == SubstituteOne(url, key, value) by {
          assert entries[..k + 1][..k] == entries[..k];
        }
        if Includes(url, Placeholder(key)) {
          url := ReplaceFirst(url, Placeholder(key), ValueText(value));
        }
      }
      assert entries[..|entries|] == entries;
    }
  }

  /** A parameter whose placeholder does not occur anywhere along the way is
      ignored: dropping it gives the same url. */
  lemma {:induction false} AbsentParamIgnored(url: string, params: seq<(string, ParamValue)>, key: string, value: ParamValue)
    requires !Includes(Substitute(url, params), Placeholder(key))
    ensures Substitute(url, params + [(key, value)]) == Substitute(url, params)
  {
    assert (params + [(key, value)])[..|params|] == params;
  }

  /** The first placeholder is found at `i` when it occurs there and no
      `:` comes before it. */
  lemma FirstPlaceholderAt(url: string, key: string, i: nat)
    requires OccursAt(url, Placeholder(key), i)
    requires forall j :: 0 <= j < i ==> url[j] != ':'
    ensures IndexOf(url, Placeholder(key)) == Some(i)
  {
    var k := IndexOf(url, Placeholder(key)).value;
    assert url[k] == url[k..k + |key| + 1][0] == ':';
  }

  /** After a prefix with no `:`, the placeholder that follows it is the
      first one found, and substituting it keeps the prefix and the rest. */
  lemma PlaceholderAfterPrefix(prefix: string, key: string, rest: string, value: ParamValue)
    requires ':' !in prefix && '$' !in ValueText(value)
    ensures SubstituteOne(prefix + Placeholder(key) + rest, key, value) == prefix + ValueText(value) + rest
  {
    var url := prefix + Placeholder(key) + rest;
    assert url[|prefix|..|prefix| + |key| + 1] == Placeholder(key);
    FirstPlaceholderAt(url, key, |prefix|);
    assert url[..|prefix|] == prefix && url[|prefix| + |key| + 1..] == rest;
  }

  /** The item path: `buildUrl("/api/problems/:id", { id: n })` is
      `"/api/problems/"` followed by the decimal text of `n`. */
  lemma ProblemPath(n: int)
    ensures Substitute("/api/problems/:id", [("id", Num(n))]) == "/api/problems/" + IntToString(n)
  {
    var params := [("id", Num(n))];
    assert params[..0] == [];
    assert "/api/problems/:id" == "/api/problems/" + Placeholder("id") + "";
    IntToStringHasNoSigils(n);
    PlaceholderAfterPrefix("/api/problems/", "id", "", Num(n));
  }

  /** Placeholders are matched as text, not as whole segments: a key that is
      a prefix of a longer placeholder's name is replaced inside it, so
      `buildUrl("/r/:idx", { id: 7 })` is `"/r/7x"`. */
  lemma PrefixKeyMatchesLongerPlaceholder(prefix: string, key: string, suffix: string, value: ParamValue)
    requires ':' !in prefix && '$' !in ValueText(value)
    ensures Substitute(prefix + Placeholder(key + suffix), [(key, value)]) == prefix + ValueText(value) + suffix
  {
    var params := [(key, value)];
    assert params[..0] == [];
    assert prefix + Placeholder(key + suffix) == prefix + Placeholder(key) + suffix;
    PlaceholderAfterPrefix(prefix, key, suffix, value);
  }

  /** String values go through the replacement patterns of `replace`:
      `$&` puts the placeholder itself back. */
  lemma DollarPatternInValue()
    ensures Substitute("/u/:name", [("name", Str("$&"))]) == "/u/:name"
  {
    var params := [("name", Str("$&"))];
    assert params[..0] == [];
    assert "/u/:name" == "/u/" + Placeholder("name") + "";
    FirstPlaceholderAt("/u/" + Placeholder("name") + "", "name", 3);
    assert ExpandReplacement("$&", ":name", "/u/", "") == ":name" + ExpandReplacement("", ":name", "/u/", "");
  }

  /** The body of the profile update: each field may be absent; the image
      url may also be `null`. */
  datatype UserUpdate = UserUpdate(username: Option<string>, profileImageUrl: Option<Option<string>>)

  /** `updateUserSchema`: a present username is non-empty; a present, non-null
      image url is a URL (URL syntax is the parameter `isUrl`). */
  function ValidUserUpdate(u: UserUpdate, isUrl: string -> bool): (b: bool)
    ensures b ==> u.username != Some("")
    ensures b <==> (u.username.Some? ==> |u.username.value| >= 1) &&
                   forall url :: u.profileImageUrl == Some(Some(url)) ==> isUrl(url)
  {
    && (u.username.Some? ==> u.username.value != "")
    && (u.profileImageUrl.Some? && u.profileImageUrl.value.Some? ==> isUrl(u.profileImageUrl.value.value))
  }

  /** An empty update, or one that only clears the image, is accepted
      whatever counts as a URL; a username alone is accepted exactly when it
      is non-empty, an image url alone exactly when it is a URL; and an empty
      username is refused whatever comes with it. */
  lemma UserUpdateRules(isUrl: string -> bool, name: string, url: string, image: Option<Option<string>>)
    ensures ValidUserUpdate(UserUpdate(None, None), isUrl)
    ensures ValidUserUpdate(UserUpdate(None, Some(None)), isUrl)
    ensures ValidUserUpdate(UserUpdate(Some(name), None), isUrl) <==> name != ""
    ensures ValidUserUpdate(UserUpdate(None, Some(Some(url))), isUrl) <==> isUrl(url)
    ensures !ValidUserUpdate(UserUpdate(Some(""), image), isUrl)
  {
  }
}
