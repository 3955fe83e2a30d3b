/**
 * `getQueryOffsetAndLimit`: extends a listing query with OFFSET and/or LIMIT clauses whose
 * values are passed as statement parameters. The database call is where the statement is
 * emitted; `None` means nothing was emitted and the caller falls back to its own query.
 */
module QueryOffsetAndLimit {
  import opened Wrappers
  import opened SqlText
  import opened RequestParams

  /** The parameters that are present, offset first. */
  function PresentValues(offset: Option<string>, limit: Option<string>): (vs: seq<string>)
    ensures |vs| <= 2
    ensures forall v :: v in vs ==> v != ""
  {
    (if Present(offset) then [offset.value] else []) + (if Present(limit) then [limit.value] else [])
  }

  /** `offset $1`: the OFFSET clause, bound to the first value. */
  const OffsetClause: string := ParamClause("offset", '1')

  /** `limit $1`: the LIMIT clause when it binds the first value. */
  const LimitFirstClause: string := ParamClause("limit", '1')

  /** `limit $2`: the LIMIT clause when it follows the OFFSET clause. */
  const LimitSecondClause: string := ParamClause("limit", '2')

  /** The clause lines are the text the helper writes. */
  lemma ClauseTexts()
    ensures OffsetClause == "offset $1" && LimitFirstClause == "limit $1" && LimitSecondClause == "limit $2"
  {
  }

  function GetQueryOffsetAndLimit(defaultQuery: string, offset: Option<string>, limit: Option<string>)
    : (r: Option<Statement>)
    ensures r.Some? <==> Present(offset) || Present(limit)
    ensures r.Some? ==> r.value.values == PresentValues(offset, limit)
  {
    if Present(offset) && Present(limit) then
      Some(Statement(Template([defaultQuery, OffsetClause, LimitSecondClause]), [offset.value, limit.value]))
    else if Present(offset) then
      Some(Statement(Template([defaultQuery, OffsetClause]), [offset.value]))
    else if Present(limit) then
      Some(Statement(Template([defaultQuery, LimitFirstClause]), [limit.value]))
    else
      None
  }

  /** The OFFSET clause line: the keyword and the first placeholder. */
  lemma OffsetLine()
    ensures Words(OffsetClause) == ["offset", "$1"] && Placeholders(OffsetClause) == [1]
  {
    KeywordPlaceholderWords("offset", '1');
    KeywordPlaceholderNumber("offset", '1');
  }

  /** The LIMIT clause line when it binds the first value. */
  lemma LimitFirstLine()
    ensures Words(LimitFirstClause) == ["limit", "$1"] && Placeholders(LimitFirstClause) == [1]
  {
    KeywordPlaceholderWords("limit", '1');
    KeywordPlaceholderNumber("limit", '1');
  }

  /** The LIMIT clause line when it binds the second value. */
  lemma LimitSecondLine()
    ensures Words(LimitSecondClause) == ["limit", "$2"] && Placeholders(LimitSecondClause) == [2]
  {
    KeywordPlaceholderWords("limit", '2');
    KeywordPlaceholderNumber("limit", '2');
  }

  /** Words and placeholders of the statement written when both parameters are present. */
  lemma BothClauses(defaultQuery: string)
    ensures Words(Template([defaultQuery, OffsetClause, LimitSecondClause]))
         == Words(defaultQuery) + ["offset", "$1", "limit", "$2"]
    ensures Placeholders(Template([defaultQuery, OffsetClause, LimitSecondClause]))
         == Placeholders(defaultQuery) + [1, 2]
  {
    ThreeLines(defaultQuery, OffsetClause, LimitSecondClause);
    OffsetLine();
    LimitSecondLine();
  }

  /** Words and placeholders of the statement written when only the offset is present. */
  lemma OffsetClauseOnly(defaultQuery: string)
    ensures Words(Template([defaultQuery, OffsetClause])) == Words(defaultQuery) + ["offset", "$1"]
    ensures Placeholders(Template([defaultQuery, OffsetClause])) == Placeholders(defaultQuery) + [1]
  {
    TwoLines(defaultQuery, OffsetClause);
    OffsetLine();
  }

  /** Words and placeholders of the statement written when only the limit is present. */
  lemma LimitClauseOnly(defaultQuery: string)
    ensures Words(Template([defaultQuery, LimitFirstClause])) == Words(defaultQuery) + ["limit", "$1"]
    ensures Placeholders(Template([defaultQuery, LimitFirstClause])) == Placeholders(defaultQuery) + [1]
  {
    TwoLines(defaultQuery, LimitFirstClause);
    LimitFirstLine();
  }

  /**
   * The statement reads as the default query followed by the clauses of the present
   * parameters: OFFSET before LIMIT, each with its placeholder, and no clause for an absent one.
   */
  lemma ClauseWords(defaultQuery: string, offset: Option<string>, limit: Option<string>)
    requires Present(offset) || Present(limit)
    ensures var text := GetQueryOffsetAndLimit(defaultQuery, offset, limit).value.text;
      Words(text) == Words(defaultQuery) +
        if Present(offset) && Present(limit) then ["offset", "$1", "limit", "$2"]
        else if Present(offset) then ["offset", "$1"]
        else ["limit", "$1"]
  {
    if Present(offset) && Present(limit) {
      BothClauses(defaultQuery);
    } else if Present(offset) {
      OffsetClauseOnly(defaultQuery);
    } else {
      LimitClauseOnly(defaultQuery);
    }
  }

  /**
   * The placeholders the helper adds are exactly $1 .. $n for its n values, in order, so a
   * default query without placeholders yields a statement binding every value exactly once.
   */
  lemma PlaceholdersMatchValues(defaultQuery: string, offset: Option<string>, limit: Option<string>)
    requires Present(offset) || Present(limit)
    ensures var s := GetQueryOffsetAndLimit(defaultQuery, offset, limit).value;
      Placeholders(s.text) == Placeholders(defaultQuery) + OneTo(|s.values|)
  {
    assert OneTo(1) == [1];
    assert OneTo(2) == [1, 2];
    if Present(offset) && Present(limit) {
      BothClauses(defaultQuery);
    } else if Present(offset) {
      OffsetClauseOnly(defaultQuery);
    } else {
      LimitClauseOnly(defaultQuery);
    }
  }

  /** The default query appears verbatim, right after the template's opening indentation. */
  lemma DefaultQueryKept(defaultQuery: string, offset: Option<string>, limit: Option<string>)
    requires Present(offset) || Present(limit)
    ensures var text := GetQueryOffsetAndLimit(defaultQuery, offset, limit).value.text;
      |text| >= |LineStart| + |defaultQuery| &&
      text[..|LineStart|] == LineStart &&
      text[|LineStart|..|LineStart| + |defaultQuery|] == defaultQuery
  {
    if Present(offset) && Present(limit) {
      TemplateFirstLine([defaultQuery, OffsetClause, LimitSecondClause]);
    } else if Present(offset) {
      TemplateFirstLine([defaultQuery, OffsetClause]);
    } else {
      TemplateFirstLine([defaultQuery, LimitFirstClause]);
    }
  }

  /**
   * The values of offset and limit never reach the statement text: the text depends only on
   * which of the two are present.
   */
  lemma TextIgnoresValues(defaultQuery: string, offset: Option<string>, limit: Option<string>,
                          offset': Option<string>, limit': Option<string>)
    requires Present(offset) == Present(offset') && Present(limit) == Present(limit')
    requires Present(offset) || Present(limit)
    ensures GetQueryOffsetAndLimit(defaultQuery, offset, limit).value.text
         == GetQueryOffsetAndLimit(defaultQuery, offset', limit').value.text
  {
  }
}
