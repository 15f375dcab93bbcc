/**
 * The vocabulary tables, layout constants and text templates of
 * lookml/config.py.
 */
module Config {

  /** Keys that may repeat in one collection; their values are lists of occurrences. */
  const NONUNIQUE_PROPERTIES: set<string> :=
    {"include", "link", "filters", "bind_filters", "data_groups", "named_value_format",
     "sets", "column", "derived_column", "includes", "allowed_value", "actions"}

  /** Keys whose single value is a bracketed list. */
  const MULTIVALUE_PROPERTIES: seq<string> :=
    ["drill_fields", "timeframes", "tiers", "suggestions", "tags"]

  const KEYS_WITH_NAME_FIELDS: seq<string> :=
    ["user_attribute_param", "param", "form_param", "option"]

  /** The default timeframes of a dimension group. */
  const TIMEFRAMES: seq<string> :=
    ["raw", "year", "quarter", "month", "week", "date", "day_of_week", "hour",
     "hour_of_day", "minute", "time", "time_of_day"]

  const JOIN_TYPES: seq<string> := ["left_outer", "full_outer", "inner", "cross"]

  const RELATIONSHIPS: seq<string> := ["one_to_many", "many_to_one", "one_to_one", "many_to_many"]

  const DB_FIELD_DELIMITER_START: string := "`"
  const DB_FIELD_DELIMITER_END: string := "`"
  const INDENT: string := "  "
  const NEWLINE: string := "\n"
  const NEWLINEINDENT: string := NEWLINE + INDENT

  /** The `token` of each kind of entity; it selects the template and is printed before the name. */
  datatype Token = DimensionToken | DimensionGroupToken | MeasureToken | FilterToken
                 | ParameterToken | JoinToken | ViewToken | ExploreToken

  function TokenName(t: Token): string
  {
    match t
    case DimensionToken => "dimension"
    case DimensionGroupToken => "dimension_group"
    case MeasureToken => "measure"
    case FilterToken => "filter"
    case ParameterToken => "parameter"
    case JoinToken => "join"
    case ViewToken => "view"
    case ExploreToken => "explore"
  }

  /** `TEMPLATES.default`: `$message$token: $identifier { $props }`. */
  function DefaultTemplate(message: string, token: string, identifier: string, props: string): string
  {
    message + token + ": " + identifier + " { " + props + " }"
  }

  /** The template a field or a join is substituted into (`getattr(TEMPLATES, token)`). */
  function EntityTemplate(t: Token, message: string, identifier: string, props: string): (r: string)
    requires t != ViewToken && t != ExploreToken
    ensures r == DefaultTemplate(message, TokenName(t), identifier, props)
  {
    match t
    case JoinToken => DefaultTemplate(message, "join", identifier, props)
    case DimensionToken => DefaultTemplate(message, "dimension", identifier, props)
    case MeasureToken => DefaultTemplate(message, "measure", identifier, props)
    case ParameterToken => DefaultTemplate(message, "parameter", identifier, props)
    case FilterToken => DefaultTemplate(message, "filter", identifier, props)
    case DimensionGroupToken => DefaultTemplate(message, "dimension_group", identifier, props)
  }

  /**
   * `TEMPLATES.view`: the view's own properties, then parameters, filters,
   * dimensions, dimension groups, measures and sets, then the child views.
   */
  function ViewTemplate(message: string, identifier: string, props: string, parameters: string,
                        filters: string, dimensions: string, dimensionGroups: string,
                        measures: string, sets: string, children: string): string
  {
    message + "\nview: " + identifier + " {" + props + parameters + filters + dimensions
      + dimensionGroups + measures + sets + "}\n" + children
  }

  /** `TEMPLATES.explore`. */
  function ExploreTemplate(message: string, token: string, identifier: string, props: string,
                           joins: string): string
  {
    "\n" + message + " " + token + ": " + identifier + " { " + props + " " + joins + " }\n"
  }

  /** `TEMPLATES.array`. */
  function ArrayTemplate(data: string): string { "{ " + data + " }" }

  /** `TEMPLATES._list`. */
  function ListTemplate(data: string): string { "[ " + data + "] " }

  /** The two vocabularies of a join, and the repeatable and multi-value key tables. */
  lemma Vocabularies()
    ensures (set t | t in JOIN_TYPES) == {"left_outer", "full_outer", "inner", "cross"}
    ensures (set r | r in RELATIONSHIPS) == {"one_to_many", "many_to_one", "one_to_one", "many_to_many"}
    ensures {"sets", "filters", "link", "actions", "include"} <= NONUNIQUE_PROPERTIES
    ensures forall m :: m in MULTIVALUE_PROPERTIES ==> m !in NONUNIQUE_PROPERTIES
    ensures NEWLINEINDENT == "\n  " && |INDENT| == 2
    ensures |TIMEFRAMES| == 12 && TIMEFRAMES[0] == "raw" && TIMEFRAMES[11] == "time_of_day"
    ensures DB_FIELD_DELIMITER_START == DB_FIELD_DELIMITER_END == "`"
  {
  }
}
