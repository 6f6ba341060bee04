/**
 * The schema collaborator (`find` with its `html` and `svg` tables) and the
 * namespace constants. The tables are abstract: every result of the converter
 * is stated for whatever lookup the tables perform.
 */
module PropertyInfo {

  /** What `find(schema, key)` says about a property name. */
  datatype Info = Info(
    attribute: string,
    property: string,
    mustUseProperty: bool,
    boolean: bool,
    booleanish: bool,
    overloadedBoolean: bool,
    commaSeparated: bool)

  /** One schema's lookup table, from property name to its description. */
  datatype Schema = Schema(table: string -> Info)

  /** The two schema sets the converter chooses between. */
  datatype Schemas = Schemas(html: Schema, svg: Schema)

  function Find(schema: Schema, key: string): Info {
    schema.table(key)
  }

  const HTML: string := "http://www.w3.org/1999/xhtml"
  const SVG: string := "http://www.w3.org/2000/svg"
}
