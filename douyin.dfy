/** Upload-page URL construction from the configured template. */
module Douyin {
  import opened Strings

  const Placeholder: string := "{accountId}"

  /** JavaScript `replace` expands `$` patterns in the replacement; the model excludes them. */
  predicate NoDollar(s: string)
  {
    forall i :: 0 <= i < |s| ==> s[i] != '$'
  }

  /**
   * `template.replace('{accountId}', accountId)`: with a string pattern only
   * the first occurrence is replaced.
   */
  function BuildUploadUrl(template: string, accountId: string): (url: string)
    requires NoDollar(accountId)
  {
    var k := IndexOf(template, Placeholder);
    if k < 0 then template else template[..k] + accountId + template[k + |Placeholder|..]
  }

  /** A template without the placeholder is returned unchanged. */
  lemma BuildWithoutPlaceholder(template: string, accountId: string)
    requires NoDollar(accountId)
    requires forall j: nat :: !OccursAt(template, Placeholder, j)
    ensures BuildUploadUrl(template, accountId) == template
  {
    ContainsIffOccurs(template, Placeholder);
  }

  /**
   * Splitting the template at the first placeholder: the result is the text
   * before it, the account id, then everything after it, verbatim (so later
   * placeholders stay literal), and its length is |template| - 11 + |accountId|.
   */
  lemma BuildAtFirstPlaceholder(template: string, accountId: string, before: string, after: string)
    requires NoDollar(accountId)
    requires template == before + Placeholder + after
    requires forall j :: 0 <= j < |before| ==> !OccursAt(template, Placeholder, j)
    ensures BuildUploadUrl(template, accountId) == before + accountId + after
    ensures |BuildUploadUrl(template, accountId)| == |template| - 11 + |accountId|
  {
    assert OccursAt(template, Placeholder, |before|) by {
      assert template[|before|..|before| + |Placeholder|] == Placeholder;
    }
    var k := IndexOf(template, Placeholder);
    assert k == |before|;
    assert template[..k] == before;
    assert template[k + |Placeholder|..] == after;
  }

  /** A placeholder after the first one survives replacement. */
  lemma LaterPlaceholdersStay(template: string, accountId: string, before: string, after: string)
    requires NoDollar(accountId)
    requires template == before + Placeholder + after
    requires forall j :: 0 <= j < |before| ==> !OccursAt(template, Placeholder, j)
    requires Contains(after, Placeholder)
    ensures Contains(BuildUploadUrl(template, accountId), Placeholder)
  {
    BuildAtFirstPlaceholder(template, accountId, before, after);
    OccursAfterPrefix(before + accountId, after, Placeholder, IndexOf(after, Placeholder));
    ContainsIffOccurs((before + accountId) + after, Placeholder);
  }
}
