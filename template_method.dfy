/** Template method: Run fixes the order connect, select, display,
    disconnect; the two data access objects differ only in their query and
    their display header. Display's printed lines are appended to a console
    log kept by the object. */
module TemplateMethodPattern {
  import opened Wrappers

  /** The two concrete data access objects. */
  datatype Table = Categories | Products

  const Northwind := "Server=.;User Id=sa;Password=;Database=Northwind"

  function Query(t: Table): string {
    match t
    case Categories => "select CategoryName from Categories"
    case Products => "select top 10 ProductName from Products"
  }

  function Header(t: Table): string {
    match t
    case Categories => "Categories ---- "
    case Products => "Products ---- "
  }

  const ResultPrefix := "Result of '"

  /** The query quoted after "Result of "; the connection string plays no
      part. */
  function SqlResult(sql: string, connectionString: string): (r: string)
    ensures |r| == |ResultPrefix| + |sql| + 1
    ensures r[..|ResultPrefix|] == ResultPrefix && r[|r| - 1] == '\''
    ensures r[|ResultPrefix|..|r| - 1] == sql
  {
    ResultPrefix + sql + "'"
  }

  /** Reads the query back out of a result, None when the text is not of
      that form. */
  function QueryOf(result: string): (q: Option<string>)
    ensures q.Some? ==> SqlResult(q.value, "") == result
  {
    if |result| > |ResultPrefix| && result[..|ResultPrefix|] == ResultPrefix && result[|result| - 1] == '\'' then
      var q := result[|ResultPrefix|..|result| - 1];
      assert result == ResultPrefix + q + "'";
      Some(q)
    else None
  }

  /** Every result gives its query back, whatever the connection string. */
  lemma QueryRoundTrip(sql: string, connectionString: string)
    ensures QueryOf(SqlResult(sql, connectionString)) == Some(sql)
  {
    var r := SqlResult(sql, connectionString);
    assert r[..|ResultPrefix|] == ResultPrefix;
  }

  class DataAccessObject {
    const table: Table
    var connectionString: string
    var dataSet: string
    var console: seq<string>

    constructor (table: Table)
      ensures this.table == table && connectionString == "" && dataSet == "" && console == []
    {
      this.table := table;
      connectionString, dataSet, console := "", "", [];
    }

    method Connect()
      modifies this
      ensures connectionString == Northwind && dataSet == old(dataSet) && console == old(console)
    {
      connectionString := Northwind;
    }

    method Disconnect()
      modifies this
      ensures connectionString == "" && dataSet == old(dataSet) && console == old(console)
    {
      connectionString := "";
    }

    method Select()
      modifies this
      ensures dataSet == SqlResult(Query(table), old(connectionString))
      ensures connectionString == old(connectionString) && console == old(console)
    {
      var sql := Query(table);
      dataSet := SqlResult(sql, connectionString);
    }

    /** The header, then the data set. */
    method Display()
      modifies this
      ensures console == old(console) + [Header(table), dataSet]
      ensures connectionString == old(connectionString) && dataSet == old(dataSet)
    {
      console := console + [Header(table), dataSet];
    }

    /** The template method. Whatever the object held before, afterwards it
        is disconnected, holds the result of its own query and has shown
        exactly that result under its header. */
    method Run()
      modifies this
      ensures connectionString == ""
      ensures dataSet == SqlResult(Query(table), Northwind)
      ensures console == old(console) + [Header(table), SqlResult(Query(table), Northwind)]
    {
      Connect();
      Select();
      Display();
      Disconnect();
    }
  }

  /** main: a Categories object runs, then a Products object; each shows
      its header and the result quoting its own query. */
  method MainSequence() returns (console: seq<string>)
    ensures console == [ Header(Categories), SqlResult(Query(Categories), Northwind),
                         Header(Products), SqlResult(Query(Products), Northwind) ]
    ensures QueryOf(console[1]) == Some("select CategoryName from Categories")
    ensures QueryOf(console[3]) == Some("select top 10 ProductName from Products")
  {
    var dao := new DataAccessObject(Categories);
    dao.Run();
    console := dao.console;
    dao := new DataAccessObject(Products);
    dao.Run();
    console := console + dao.console;
    QueryRoundTrip(Query(Categories), Northwind);
    QueryRoundTrip(Query(Products), Northwind);
  }
}
