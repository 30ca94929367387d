/** The display helpers of the dashboard: the document title, the option
    list of a select box, and the currency suffix of a formatted price. */
module Config {
  import opened Common

  /** The separator between a page title and the project name. */
  const TITLE_SEPARATOR: string := " | "

  /** The document title of a page: the page's own title, then the project
      name; an empty title leaves the project name alone. */
  function PageTitle(title: string, projectName: string): (r: string)
    ensures title == "" ==> r == projectName
    ensures title != "" ==> |r| == |title| + |TITLE_SEPARATOR| + |projectName|
    ensures title != "" ==> r[..|title|] == title && r[|title|..] == TITLE_SEPARATOR + projectName
  {
    if title != "" then title + TITLE_SEPARATOR + projectName else projectName
  }

  /** The inverse of PageTitle: the page's own title, read back from a
      document title by removing the separator and the project name. */
  function TitleOf(documentTitle: string, projectName: string): string {
    var suffix := TITLE_SEPARATOR + projectName;
    if |documentTitle| >= |suffix| && documentTitle[|documentTitle| - |suffix|..] == suffix
    then documentTitle[..|documentTitle| - |suffix|]
    else ""
  }

  /** The page's title is recovered from the document title, for every title
      (the empty one included), so no two pages share a document title. */
  lemma PageTitleRoundTrip(title: string, projectName: string)
    ensures TitleOf(PageTitle(title, projectName), projectName) == title
  {
    var r := PageTitle(title, projectName);
    var suffix := TITLE_SEPARATOR + projectName;
    if title != "" {
      assert r == title + suffix;
      assert r[|r| - |suffix|..] == suffix;
      assert r[..|r| - |suffix|] == title;
    } else {
      assert |r| < |suffix|;
    }
  }

  /** One entry of a select box. */
  datatype SelectOption = SelectOption(caption: Value, value: Value)

  /** The keys `getOptions` reads when the caller names none. */
  const DEFAULT_LABEL_KEY: string := "name"
  const DEFAULT_VALUE_KEY: string := "id"

  /** The options of a select box built from a list of API records: no list
      gives no options; otherwise one option per record, in order, labelled
      by the record's `labelKey` field and valued by its `valueKey` field. */
  function GetOptions(data: Option<seq<Values>>, labelKey: string, valueKey: string): (r: seq<SelectOption>)
    ensures data.None? ==> r == []
    ensures data.Some? ==> |r| == |data.value|
    ensures data.Some? ==> forall i :: 0 <= i < |r| ==>
              r[i].caption == Get(data.value[i], labelKey) && r[i].value == Get(data.value[i], valueKey)
    decreases if data.Some? then |data.value| else 0
  {
    match data
    case None => []
    case Some(items) =>
      if items == [] then []
      else
        [SelectOption(Get(items[0], labelKey), Get(items[0], valueKey))]
        + GetOptions(Some(items[1..]), labelKey, valueKey)
  }

  /** The currency `formatPrice` appends when the caller names none. */
  const DEFAULT_CURRENCY: string := "AZN"

  /** `formatPrice` given the amount already written with two decimals: the
      amount, a space, then the currency. */
  function FormatPrice(amountText: string, currency: string): (r: string)
    ensures |r| == |amountText| + 1 + |currency|
    ensures r[..|amountText|] == amountText
    ensures r[|amountText|..] == " " + currency
  {
    amountText + " " + currency
  }
}
