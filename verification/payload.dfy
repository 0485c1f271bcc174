/** The JSON body `createShortUrl` posts to `/links`
    (src/ElnkProShortener.js:54-79): fields are assigned in a fixed order,
    the alias slot is set to null when no alias is given, and a final pass
    deletes every null-valued key. */
module Payload {
  import opened Wrappers
  import opened Text

  datatype Value = Null | Str(text: string)

  /** One key of the JSON object, in insertion order. */
  datatype Field = Field(key: string, value: Value)

  /** The field for an optional setting that is only assigned when truthy. */
  function OptField(key: string, v: Option<string>): (r: seq<Field>)
    ensures |r| <= 1
    ensures r != [] <==> Truthy(v)
    ensures r != [] ==> r[0] == Field(key, Str(v.value))
  {
    if Truthy(v) then [Field(key, Str(v.value))] else []
  }

  /** The body as the server receives it, after the null filter. */
  function CreateBody(originalUrl: string, customAlias: Option<string>,
                      domainId: Option<string>, projectId: Option<string>): seq<Field>
  {
    [Field("destination", Str(originalUrl)), Field("type", Str("link"))]
      + OptField("domain_id", domainId) + OptField("project_id", projectId)
      + OptField("url", customAlias)
  }

  /** The fields of fs whose value is not null, in order. */
  function WithoutNulls(fs: seq<Field>): (r: seq<Field>)
    ensures forall k :: 0 <= k < |r| ==> r[k].value.Str?
  {
    if fs == [] then []
    else
      var last := fs[|fs| - 1];
      WithoutNulls(fs[..|fs| - 1]) + (if last.value.Null? then [] else [last])
  }

  lemma {:induction false} WithoutNullsKeepsStrings(fs: seq<Field>)
    requires forall k :: 0 <= k < |fs| ==> fs[k].value.Str?
    ensures WithoutNulls(fs) == fs
  {
    if fs != [] {
      WithoutNullsKeepsStrings(fs[..|fs| - 1]);
      assert fs[..|fs| - 1] + [fs[|fs| - 1]] == fs;
    }
  }

  lemma {:induction false} WithoutNullsAppend(fs: seq<Field>, gs: seq<Field>)
    ensures WithoutNulls(fs + gs) == WithoutNulls(fs) + WithoutNulls(gs)
    decreases |gs|
  {
    if gs == [] {
      assert fs + gs == fs;
    } else {
      var n := |gs| - 1;
      assert (fs + gs)[..|fs + gs| - 1] == fs + gs[..n];
      WithoutNullsAppend(fs, gs[..n]);
    }
  }

  /** The assign-then-delete construction: the returned object is exactly
      CreateBody, so no key is left holding null. */
  method BuildCreateBody(originalUrl: string, customAlias: Option<string>,
                         domainId: Option<string>, projectId: Option<string>)
    returns (data: seq<Field>)
    ensures data == CreateBody(originalUrl, customAlias, domainId, projectId)
    ensures forall k :: 0 <= k < |data| ==> data[k].value.Str?
  {
    var draft := [Field("destination", Str(originalUrl)), Field("type", Str("link"))];
    ghost var fixed := draft;
    if Truthy(domainId) {
      draft := draft + [Field("domain_id", Str(domainId.value))];
    }
    assert draft == fixed + OptField("domain_id", domainId);
    ghost var withDomain := draft;
    if Truthy(projectId) {
      draft := draft + [Field("project_id", Str(projectId.value))];
    }
    assert draft == withDomain + OptField("project_id", projectId);
    if Truthy(customAlias) {
      draft := draft + [Field("url", Str(customAlias.value))];
    } else {
      draft := draft + [Field("url", Null)];  // the server picks a random alias
    }
    data := DropNulls(draft);
    DraftFiltered(originalUrl, customAlias, domainId, projectId, draft);
  }

  /** The `delete data[key]` pass over every null-valued key. */
  method DropNulls(draft: seq<Field>) returns (data: seq<Field>)
    ensures data == WithoutNulls(draft)
  {
    data := [];
    for i := 0 to |draft|
      invariant data == WithoutNulls(draft[..i])
    {
      assert draft[..i + 1][..i] == draft[..i];
      if draft[i].value != Null {
        data := data + [draft[i]];
      }
    }
    assert draft[..|draft|] == draft;
  }

  /** The draft object before the null filter: the alias slot holds null when
      no alias is given. Filtering it gives CreateBody. */
  lemma DraftFiltered(originalUrl: string, customAlias: Option<string>,
                      domainId: Option<string>, projectId: Option<string>, draft: seq<Field>)
    requires draft ==
      [Field("destination", Str(originalUrl)), Field("type", Str("link"))]
        + OptField("domain_id", domainId) + OptField("project_id", projectId)
        + [if Truthy(customAlias) then Field("url", Str(customAlias.value)) else Field("url", Null)]
    ensures WithoutNulls(draft) == CreateBody(originalUrl, customAlias, domainId, projectId)
  {
    var head := draft[..|draft| - 1];
    assert head + [draft[|draft| - 1]] == draft;
    WithoutNullsKeepsStrings(head);
    WithoutNullsAppend(head, [draft[|draft| - 1]]);
  }

  predicate HasKey(fs: seq<Field>, key: string) {
    exists k :: 0 <= k < |fs| && fs[k].key == key
  }

  /** What the body promises the server: destination and type always come
      first, each optional key is present exactly when its setting is
      truthy, and no key occurs twice. */
  lemma CreateBodyShape(originalUrl: string, customAlias: Option<string>,
                        domainId: Option<string>, projectId: Option<string>)
    ensures var b := CreateBody(originalUrl, customAlias, domainId, projectId);
      && |b| >= 2
      && b[0] == Field("destination", Str(originalUrl))
      && b[1] == Field("type", Str("link"))
      && (HasKey(b, "domain_id") <==> Truthy(domainId))
      && (HasKey(b, "project_id") <==> Truthy(projectId))
      && (HasKey(b, "url") <==> Truthy(customAlias))
      && (forall i, j :: 0 <= i < j < |b| ==> b[i].key != b[j].key)
  {
    var b := CreateBody(originalUrl, customAlias, domainId, projectId);
    var d, p, u := OptField("domain_id", domainId), OptField("project_id", projectId), OptField("url", customAlias);
    assert b == [b[0], b[1]] + d + p + u;
    if Truthy(domainId) { assert b[2].key == "domain_id"; }
    if Truthy(projectId) { assert b[2 + |d|].key == "project_id"; }
    if Truthy(customAlias) { assert b[2 + |d| + |p|].key == "url"; }
    forall k | 0 <= k < |b|
      ensures b[k].key in {"destination", "type", "domain_id", "project_id", "url"}
      ensures b[k].key == "domain_id" ==> k == 2 && |d| == 1
      ensures b[k].key == "project_id" ==> k == 2 + |d| && |p| == 1
      ensures b[k].key == "url" ==> k == 2 + |d| + |p| && |u| == 1
      ensures k < 2 <==> b[k].key in {"destination", "type"}
      ensures k == 0 <==> b[k].key == "destination"
    {
      if k >= 2 + |d| + |p| { assert b[k] == u[k - 2 - |d| - |p|]; }
      else if k >= 2 + |d| { assert b[k] == p[k - 2 - |d|]; }
      else if k >= 2 { assert b[k] == d[k - 2]; }
    }
  }
}
