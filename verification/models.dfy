/** The result and query types the wrapper exchanges with its callers
    (`Column`, `Row`, `Table` and `Query` of NoRe.Database.Core.Models). */
module Models {
  import opened Core

  /** One value of a row, under the name of the field it was read from. */
  datatype Column = Column(name: string, value: Value)

  /** One materialised row: its columns in field order. */
  datatype Row = Row(columns: seq<Column>)

  /** A materialised result set: its rows in cursor order. The schema
      table that accompanies it is not part of this model. */
  datatype Table = Table(rows: seq<Row>)

  /** One statement of a transaction: command text and positional parameters. */
  datatype Query = Query(commandText: string, parameters: seq<Value>)
}
