/**
 * `getQueryOrderByAndDesc`: extends a listing query with an ORDER BY clause, optionally
 * descending. The column is written into the statement text as given and no values are
 * passed with it. `None` means nothing was emitted and the caller falls back to its own query.
 */
module QueryOrderByAndDesc {
  import opened Wrappers
  import opened SqlText
  import opened RequestParams

  /** `order by <column>`: the column text is interpolated as it is. */
  function OrderByClause(column: string): string
  {
    "order" + " " + "by" + " " + column
  }

  /** The ORDER BY line is the text `order by ` followed by the column. */
  lemma OrderByClauseText(column: string)
    ensures OrderByClause(column) == "order by " + column
  {
    assert "order" + " " + "by" + " " == "order by ";
  }

  /** `desc`: the keyword line that makes the order descending. */
  const DescClause: string := "desc"

  function GetQueryOrderByAndDesc(defaultQuery: string, orderBy: Option<string>, desc: Option<string>)
    : (r: Option<Statement>)
    ensures r.Some? <==> Present(orderBy)
    ensures r.Some? ==> r.value.values == []
  {
    if Present(orderBy) && desc == Some("true") then
      Some(Statement(Template([defaultQuery, OrderByClause(orderBy.value), DescClause]), []))
    else if Present(orderBy) then
      Some(Statement(Template([defaultQuery, OrderByClause(orderBy.value)]), []))
    else
      None
  }

  /** The ORDER BY line reads as the two keywords followed by whatever the column text reads as. */
  lemma OrderByLineWords(column: string)
    ensures Words(OrderByClause(column)) == ["order", "by"] + Words(column)
  {
    TwoWordsThenText("order", "by", column);
  }

  /** The ORDER BY line has the placeholders of the column text and no others. */
  lemma OrderByLinePlaceholders(column: string)
    ensures Placeholders(OrderByClause(column)) == Placeholders(column)
  {
    var keywords := "order" + " " + "by" + " ";
    assert OrderByClause(column) == keywords + column;
    PlaceholdersAfterPlain(keywords, column);
  }

  /** The DESC line is the one keyword. */
  lemma DescLineWords()
    ensures Words(DescClause) == ["desc"]
  {
    WordsCons(DescClause, []);
    assert DescClause + [] == DescClause;
  }

  /** The DESC line has no placeholder. */
  lemma DescLinePlaceholders()
    ensures Placeholders(DescClause) == []
  {
    PlaceholdersAfterPlain(DescClause, []);
    assert DescClause + [] == DescClause;
  }

  /**
   * The statement reads as the default query, then `order by`, then the column text,
   * then `desc` exactly when desc is the string "true".
   */
  lemma ClauseWords(defaultQuery: string, orderBy: Option<string>, desc: Option<string>)
    requires Present(orderBy)
    ensures var text := GetQueryOrderByAndDesc(defaultQuery, orderBy, desc).value.text;
      Words(text) == Words(defaultQuery) + ["order", "by"] + Words(orderBy.value) +
        if desc == Some("true") then ["desc"] else []
  {
    var column := orderBy.value;
    var head := Words(defaultQuery) + ["order", "by"] + Words(column);
    OrderByLineWords(column);
    assert Words(defaultQuery) + Words(OrderByClause(column)) == head;
    if desc == Some("true") {
      ThreeLinesWords(defaultQuery, OrderByClause(column), DescClause);
      DescLineWords();
    } else {
      TwoLinesWords(defaultQuery, OrderByClause(column));
      assert head + [] == head;
    }
  }

  /**
   * No values are passed, so every placeholder of the statement comes from the default
   * query or from the column text itself.
   */
  lemma StatementPlaceholders(defaultQuery: string, orderBy: Option<string>, desc: Option<string>)
    requires Present(orderBy)
    ensures var text := GetQueryOrderByAndDesc(defaultQuery, orderBy, desc).value.text;
      Placeholders(text) == Placeholders(defaultQuery) + Placeholders(orderBy.value)
  {
    OrderByLinePlaceholders(orderBy.value);
    if desc == Some("true") {
      ThreeLinesPlaceholders(defaultQuery, OrderByClause(orderBy.value), DescClause);
      DescLinePlaceholders();
    } else {
      TwoLinesPlaceholders(defaultQuery, OrderByClause(orderBy.value));
    }
  }

  /**
   * The default query stands verbatim after the opening indentation, and the column stands
   * verbatim after `order by ` on the next line.
   */
  lemma TextKeepsQueryAndColumn(defaultQuery: string, orderBy: Option<string>, desc: Option<string>)
    requires Present(orderBy)
    ensures var text := GetQueryOrderByAndDesc(defaultQuery, orderBy, desc).value.text;
      var column := orderBy.value;
      var keywords := LineStart + "order by ";
      var at := |LineStart| + |defaultQuery| + |keywords|;
      |text| >= at + |column| &&
      text[..|LineStart|] == LineStart &&
      text[|LineStart|..|LineStart| + |defaultQuery|] == defaultQuery &&
      text[|LineStart| + |defaultQuery|..at] == keywords &&
      text[at..at + |column|] == column
  {
    var column := orderBy.value;
    var text := GetQueryOrderByAndDesc(defaultQuery, orderBy, desc).value.text;
    var lines := if desc == Some("true") then [defaultQuery, OrderByClause(column), DescClause]
                 else [defaultQuery, OrderByClause(column)];
    assert text == Template(lines);
    assert |lines| >= 2 && lines[0] == defaultQuery && lines[1] == OrderByClause(column);
    OrderByClauseText(column);
    SecondLineAt(lines, "order by ", column);
  }

  /** A plain SQL identifier: a letter or underscore, then letters, digits or underscores. */
  predicate IsIdentifier(column: string)
  {
    |column| > 0 &&
    ('a' <= column[0] <= 'z' || 'A' <= column[0] <= 'Z' || column[0] == '_') &&
    forall i :: 0 <= i < |column| ==>
      'a' <= column[i] <= 'z' || 'A' <= column[i] <= 'Z' || '0' <= column[i] <= '9' || column[i] == '_'
  }

  /**
   * What a caller must guarantee for the interpolation to be harmless: with an identifier as
   * column, the column is exactly one word and adds no placeholder.
   */
  lemma IdentifierColumnIsOneWord(defaultQuery: string, orderBy: Option<string>, desc: Option<string>)
    requires Present(orderBy) && IsIdentifier(orderBy.value)
    ensures var text := GetQueryOrderByAndDesc(defaultQuery, orderBy, desc).value.text;
      Words(text) == Words(defaultQuery) + ["order", "by", orderBy.value] +
        (if desc == Some("true") then ["desc"] else []) &&
      Placeholders(text) == Placeholders(defaultQuery)
  {
    var column := orderBy.value;
    var text := GetQueryOrderByAndDesc(defaultQuery, orderBy, desc).value.text;
    assert Words(text) == Words(defaultQuery) + ["order", "by", column] +
        (if desc == Some("true") then ["desc"] else []) by {
      ClauseWords(defaultQuery, orderBy, desc);
      WordsCons(column, []);
      assert column + [] == column;
    }
    assert Placeholders(text) == Placeholders(defaultQuery) by {
      StatementPlaceholders(defaultQuery, orderBy, desc);
      PlaceholdersAfterPlain(column, []);
      assert column + [] == column;
    }
  }

  /**
   * The column is not checked: a column text "<word> desc" sorts descending although desc is
   * absent, so the desc parameter alone does not decide the direction.
   */
  lemma ColumnCanCarryDesc(defaultQuery: string, column: string)
    requires IsWord(column)
    ensures var text := GetQueryOrderByAndDesc(defaultQuery, Some(column + " desc"), None).value.text;
      Words(text) == Words(defaultQuery) + ["order", "by", column, "desc"]
  {
    ClauseWords(defaultQuery, Some(column + " desc"), None);
    assert column + " desc" == column + (" " + DescClause);
    WordsCons(column, " " + DescClause);
    WordsAfterBlank(" ", DescClause);
    DescLineWords();
  }
}
