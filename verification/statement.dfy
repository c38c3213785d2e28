/**
 * The SQL statement builder of the data store: a query descriptor
 * (table, command, columns, filters) and the text it renders to, with the
 * rendered statement memoised in the descriptor once it is non-empty.
 *
 * The module-level functions are the reference rendering; the class Query
 * computes the same text the way the store does it (loops that collect
 * fragments, then a join) and its methods are proved against them.
 */
module Statement {
  import opened Text

  /** The column name that stands for "all columns". */
  const Star := "*"

  /** The commands the builder renders, after upper-casing. */
  predicate IsSupported(cmd: string)
  {
    cmd == "INSERT" || cmd == "REPLACE" || cmd == "SELECT" || cmd == "UPDATE" || cmd == "DELETE"
  }

  /** The bind placeholder of a column: a colon followed by the column's own name. */
  function Placeholder(column: string): (r: string)
  {
    ":" + column
  }

  /** The equality `c = :c`, used both for UPDATE assignments and for WHERE predicates. */
  function Assignment(column: string): (r: string)
  {
    column + " = :" + column
  }

  function Placeholders(columns: seq<string>): (r: seq<string>)
  {
    seq(|columns|, i requires 0 <= i < |columns| => Placeholder(columns[i]))
  }

  function Assignments(columns: seq<string>): (r: seq<string>)
  {
    seq(|columns|, i requires 0 <= i < |columns| => Assignment(columns[i]))
  }

  lemma PlaceholdersAppend(columns: seq<string>, c: string)
    ensures Placeholders(columns + [c]) == Placeholders(columns) + [Placeholder(c)]
  {
  }

  lemma AssignmentsAppend(columns: seq<string>, c: string)
    ensures Assignments(columns + [c]) == Assignments(columns) + [Assignment(c)]
  {
  }

  /**
   * The columns without the "all columns" sentinel, in their original order:
   * every other column is kept as often as it occurs, and `*` not at all.
   */
  function NonStar(columns: seq<string>): (r: seq<string>)
    ensures Star !in r
    ensures |r| <= |columns|
  {
    if columns == [] then []
    else (if columns[0] == Star then [] else [columns[0]]) + NonStar(columns[1..])
  }

  /** Filtering keeps every other column as often as it occurs, and changes nothing without `*`. */
  lemma {:induction false} NonStarCounts(columns: seq<string>)
    ensures multiset(NonStar(columns)) == multiset(columns)[Star := 0]
    ensures Star !in columns ==> NonStar(columns) == columns
  {
    if columns != [] {
      NonStarCounts(columns[1..]);
      assert columns == [columns[0]] + columns[1..];
    }
  }

  /** Filtering one more column either drops it (the sentinel) or appends it. */
  lemma {:induction false} NonStarAppend(columns: seq<string>, c: string)
    ensures NonStar(columns + [c]) == NonStar(columns) + (if c == Star then [] else [c])
  {
    if columns == [] {
      assert NonStar([c]) == (if c == Star then [] else [c]) + NonStar([]);
    } else {
      assert (columns + [c])[1..] == columns[1..] + [c];
      NonStarAppend(columns[1..], c);
    }
  }

  /** The column list of INSERT and SELECT: every column verbatim, `*` included. */
  function ColumnsText(columns: seq<string>): (r: string)
  {
    Join(columns, ", ")
  }

  /** The VALUES list of INSERT: one placeholder per column other than `*`. */
  function ParamsText(columns: seq<string>): (r: string)
  {
    Join(Placeholders(NonStar(columns)), ", ")
  }

  /** The SET list of UPDATE: one assignment per column other than `*`. */
  function SettersText(columns: seq<string>): (r: string)
  {
    Join(Assignments(NonStar(columns)), ", ")
  }

  /** The conditions of the WHERE clause: one equality per filter, joined by AND. */
  function FiltersText(filters: seq<string>): (r: string)
  {
    Join(Assignments(filters), " AND ")
  }

  /** The WHERE clause appended to every statement: nothing when there are no filters. */
  function WhereClause(filters: seq<string>): (r: string)
  {
    if |filters| > 0 then " WHERE " + FiltersText(filters) else ""
  }

  /** The statement proper, before any WHERE clause, for a normalised table and command. */
  function CommandClause(table: string, cmd: string, columns: seq<string>): (r: string)
    requires IsSupported(cmd)
  {
    if cmd == "INSERT" || cmd == "REPLACE" then
      cmd + " INTO " + table + " (" + ColumnsText(columns) + ") VALUES (" + ParamsText(columns) + ")"
    else if cmd == "SELECT" then
      cmd + " " + ColumnsText(columns) + " FROM " + table
    else if cmd == "UPDATE" then
      cmd + " " + table + " SET " + SettersText(columns)
    else
      "DELETE FROM " + table
  }

  /**
   * The text a fresh descriptor renders to: empty when the table or the
   * command is empty or the command is not one of the five supported ones.
   */
  function Render(table: string, command: string, columns: seq<string>, filters: seq<string>): (r: string)
  {
    var t, cmd := Lower(table), Upper(command);
    if t == "" || cmd == "" || !IsSupported(cmd) then ""
    else CommandClause(t, cmd, columns) + WhereClause(filters)
  }

  /**
   * A descriptor renders to nothing exactly when its table is empty or its
   * upper-cased command is not supported; an empty table or command never
   * yields a partial fragment.
   */
  lemma RenderEmptyIff(table: string, command: string, columns: seq<string>, filters: seq<string>)
    ensures Render(table, command, columns, filters) == "" <==> table == "" || !IsSupported(Upper(command))
    ensures table == "" || command == "" ==> Render(table, command, columns, filters) == ""
  {
  }

  /**
   * A supported statement is its command clause followed by the WHERE clause,
   * whose filters are the only input it depends on.
   */
  lemma RenderClauses(table: string, command: string, columns: seq<string>, filters: seq<string>)
    requires table != "" && IsSupported(Upper(command))
    ensures Render(table, command, columns, filters) == CommandClause(Lower(table), Upper(command), columns) + WhereClause(filters)
    ensures Render(table, command, columns, []) == CommandClause(Lower(table), Upper(command), columns)
    ensures Render(table, command, columns, filters) == Render(table, command, columns, []) + WhereClause(filters)
  {
  }

  /** DELETE does not look at the columns at all. */
  lemma DeleteIgnoresColumns(table: string, command: string, columns: seq<string>, other: seq<string>, filters: seq<string>)
    requires Upper(command) == "DELETE"
    ensures Render(table, command, columns, filters) == Render(table, command, other, filters)
    ensures table != "" ==> Render(table, command, columns, filters) == "DELETE FROM " + Lower(table) + WhereClause(filters)
  {
  }

  /**
   * The VALUES list has one placeholder per column that is not `*`: as many
   * as there are columns minus the occurrences of `*`, the i-th naming the
   * i-th such column.
   */
  lemma PlaceholderCount(columns: seq<string>)
    ensures |Placeholders(NonStar(columns))| == |columns| - multiset(columns)[Star]
    ensures forall i :: 0 <= i < |NonStar(columns)| ==> Placeholders(NonStar(columns))[i] == ":" + NonStar(columns)[i]
  {
    NonStarCounts(columns);
    var m := multiset(columns);
    assert |m| == |columns|;
    assert m == m[Star := 0] + multiset{}[Star := m[Star]];
    assert |multiset(NonStar(columns))| == |NonStar(columns)|;
  }

  /** Adding a column adds it verbatim to the column list, `*` included. */
  lemma ColumnsAppend(columns: seq<string>, c: string)
    ensures ColumnsText(columns + [c]) == if columns == [] then c else ColumnsText(columns) + ", " + c
  {
    JoinAppend(columns, c, ", ");
  }

  /** Adding a column adds its placeholder at the end of the VALUES list, unless it is `*`. */
  lemma ParamsAppend(columns: seq<string>, c: string)
    ensures ParamsText(columns + [c]) ==
      if c == Star then ParamsText(columns)
      else if NonStar(columns) == [] then Placeholder(c)
      else ParamsText(columns) + ", " + Placeholder(c)
  {
    NonStarAppend(columns, c);
    var kept := NonStar(columns);
    if c == Star {
      assert NonStar(columns + [c]) == kept + [] == kept;
    } else {
      assert NonStar(columns + [c]) == kept + [c];
      PlaceholdersAppend(kept, c);
      JoinAppend(Placeholders(kept), Placeholder(c), ", ");
    }
  }

  /** Adding a column adds its assignment at the end of the SET list, unless it is `*`. */
  lemma SettersAppend(columns: seq<string>, c: string)
    ensures SettersText(columns + [c]) ==
      if c == Star then SettersText(columns)
      else if NonStar(columns) == [] then Assignment(c)
      else SettersText(columns) + ", " + Assignment(c)
  {
    NonStarAppend(columns, c);
    var kept := NonStar(columns);
    if c == Star {
      assert NonStar(columns + [c]) == kept + [] == kept;
    } else {
      assert NonStar(columns + [c]) == kept + [c];
      AssignmentsAppend(kept, c);
      JoinAppend(Assignments(kept), Assignment(c), ", ");
    }
  }

  /**
   * Adding a filter appends exactly one equality to the WHERE clause, after
   * the existing ones: it opens the clause or follows an AND.
   */
  lemma WhereAppend(filters: seq<string>, f: string)
    ensures WhereClause(filters + [f]) ==
      WhereClause(filters) + (if filters == [] then " WHERE " else " AND ") + Assignment(f)
  {
    AssignmentsAppend(filters, f);
    JoinAppend(Assignments(filters), Assignment(f), " AND ");
    if filters != [] {
      var conditions := FiltersText(filters);
      assert " WHERE " + (conditions + " AND " + Assignment(f))
          == " WHERE " + conditions + " AND " + Assignment(f);
    }
  }

  // Concrete renderings. Long string literals are costly for the solver, so
  // each scenario is assembled from small lemmas that each fix one fragment.
  // The lemmas whose names end in `Head`, `Values`, `Text` and `ClauseText`
  // carry no model content: they only concatenate string literals.

  /** `users`, `select`, columns `*`, no filters. */
  lemma SelectAllScenario()
    ensures Render("users", "select", [Star], []) == "SELECT * FROM users"
  {
    assert Render("users", "select", [Star], []) == CommandClause("users", "SELECT", [Star]) by {
      assert Upper("select") == "SELECT";
      assert Lower("users") == "users";
      RenderClauses("users", "select", [Star], []);
    }
    SelectAllScenarioClause();
  }

  lemma SelectAllScenarioClause()
    ensures CommandClause("users", "SELECT", [Star]) == "SELECT * FROM users"
  {
  }

  /** `Users`, `INSERT`, columns name and email, no filters. */
  lemma InsertScenario()
    ensures Render("Users", "INSERT", ["name", "email"], [])
         == "INSERT INTO users (name, email) VALUES (:name, :email)"
  {
    assert Render("Users", "INSERT", ["name", "email"], [])
        == CommandClause("users", "INSERT", ["name", "email"]) by {
      assert Upper("INSERT") == "INSERT";
      assert Lower("Users") == "users";
    }
    InsertScenarioClause();
  }

  lemma InsertScenarioClause()
    ensures CommandClause("users", "INSERT", ["name", "email"])
         == "INSERT INTO users (name, email) VALUES (:name, :email)"
  {
    InsertScenarioColumns();
    InsertScenarioParams();
    InsertScenarioText();
  }

  lemma InsertScenarioColumns()
    ensures ColumnsText(["name", "email"]) == "name, email"
  {
  }

  lemma InsertScenarioParams()
    ensures ParamsText(["name", "email"]) == ":name, :email"
  {
  }

  lemma InsertScenarioText()
    ensures "INSERT" + " INTO " + "users" + " (" + "name, email" + ") VALUES (" + ":name, :email" + ")"
         == "INSERT INTO users (name, email) VALUES (:name, :email)"
  {
    InsertScenarioHead();
    InsertScenarioValues();
  }

  lemma InsertScenarioValues()
    ensures "INSERT INTO users (name, email" + ") VALUES (" + ":name, :email" + ")"
         == "INSERT INTO users (name, email) VALUES (:name, :email)"
  {
  }

  lemma InsertScenarioHead()
    ensures "INSERT" + " INTO " + "users" + " (" + "name, email" == "INSERT INTO users (name, email"
  {
  }

  /** `users`, `update`, column email, filter id. */
  lemma UpdateScenario()
    ensures Render("users", "update", ["email"], ["id"]) == "UPDATE users SET email = :email WHERE id = :id"
  {
    assert Render("users", "update", ["email"], ["id"])
        == CommandClause("users", "UPDATE", ["email"]) + WhereClause(["id"]) by {
      assert Upper("update") == "UPDATE";
      assert Lower("users") == "users";
    }
    UpdateScenarioClauses();
  }

  lemma UpdateScenarioClauses()
    ensures CommandClause("users", "UPDATE", ["email"]) + WhereClause(["id"])
         == "UPDATE users SET email = :email WHERE id = :id"
  {
    UpdateScenarioClause();
    WhereIdScenario();
    UpdateScenarioText();
  }

  lemma UpdateScenarioClause()
    ensures CommandClause("users", "UPDATE", ["email"]) == "UPDATE users SET email = :email"
  {
    UpdateScenarioSetters();
    UpdateScenarioClauseText();
  }

  lemma UpdateScenarioClauseText()
    ensures "UPDATE" + " " + "users" + " SET " + "email = :email" == "UPDATE users SET email = :email"
  {
  }

  lemma UpdateScenarioSetters()
    ensures SettersText(["email"]) == "email = :email"
  {
  }

  lemma UpdateScenarioText()
    ensures "UPDATE users SET email = :email" + " WHERE id = :id"
         == "UPDATE users SET email = :email WHERE id = :id"
  {
  }

  lemma WhereIdScenario()
    ensures WhereClause(["id"]) == " WHERE id = :id"
  {
  }

  /** `users`, `delete`, filter id. */
  lemma DeleteScenario()
    ensures Render("users", "delete", [], ["id"]) == "DELETE FROM users WHERE id = :id"
  {
    DeleteScenarioRender();
    WhereIdScenario();
    DeleteScenarioText();
  }

  lemma DeleteScenarioRender()
    ensures Render("users", "delete", [], ["id"]) == "DELETE FROM " + "users" + WhereClause(["id"])
  {
  }

  lemma DeleteScenarioText()
    ensures "DELETE FROM " + "users" + " WHERE id = :id" == "DELETE FROM users WHERE id = :id"
  {
  }

  /** Two filters render in their order, joined by AND and nothing else. */
  lemma TwoFiltersScenario(a: string, b: string)
    ensures WhereClause([a, b]) == " WHERE " + Assignment(a) + " AND " + Assignment(b)
  {
  }

  /**
   * A query descriptor. The four public fields may be changed by anyone at
   * any time; `sqlStmt` caches the first non-empty rendering.
   */
  class Query {
    var table: string
    var command: string
    var filters: seq<string>
    var columns: seq<string>
    var sqlStmt: string

    constructor (table: string, command: string, columns: seq<string>, filters: seq<string>)
      ensures this.table == table && this.command == command
      ensures this.columns == columns && this.filters == filters
      ensures sqlStmt == ""
    {
      this.table := table;
      this.command := command;
      this.columns := columns;
      this.filters := filters;
      sqlStmt := "";
    }

    /** The table name in lower case: empty only when the field is empty. */
    function Table(): (t: string)
      reads this
      ensures t == Lower(table)
      ensures |t| == |table|
      ensures forall i :: 0 <= i < |t| ==> !IsUpperAscii(t[i])
    {
      Lower(table)
    }

    /** The command in upper case: empty only when the field is empty. */
    function Command(): (c: string)
      reads this
      ensures c == Upper(command)
      ensures |c| == |command|
      ensures forall i :: 0 <= i < |c| ==> !IsLowerAscii(c[i])
    {
      Upper(command)
    }

    /** The column list, first and last column verbatim at its two ends. */
    function Columns(): (s: string)
      reads this
      ensures s == ColumnsText(columns)
      ensures columns == [] ==> s == ""
      ensures columns != [] ==> columns[0] <= s && EndsWith(s, columns[|columns| - 1])
    {
      if columns != [] then JoinEnds(columns, ", "); Join(columns, ", ")
      else Join(columns, ", ")
    }

    /** The WHERE conditions, built one filter at a time. */
    method Filters() returns (s: string)
      ensures s == FiltersText(filters)
    {
      var parts: seq<string> := [];
      for i := 0 to |filters|
        invariant parts == Assignments(filters[..i])
      {
        assert filters[..i + 1] == filters[..i] + [filters[i]];
        AssignmentsAppend(filters[..i], filters[i]);
        parts := parts + [Assignment(filters[i])];
      }
      assert filters[..|filters|] == filters;
      s := Join(parts, " AND ");
    }

    /** The VALUES list, skipping the sentinel column. */
    method Params() returns (s: string)
      ensures s == ParamsText(columns)
    {
      var parts: seq<string> := [];
      for i := 0 to |columns|
        invariant parts == Placeholders(NonStar(columns[..i]))
      {
        assert columns[..i + 1] == columns[..i] + [columns[i]];
        NonStarAppend(columns[..i], columns[i]);
        if columns[i] == Star {
          continue;
        }
        PlaceholdersAppend(NonStar(columns[..i]), columns[i]);
        parts := parts + [Placeholder(columns[i])];
      }
      assert columns[..|columns|] == columns;
      s := Join(parts, ", ");
    }

    /** The SET list, skipping the sentinel column. */
    method Setters() returns (s: string)
      ensures s == SettersText(columns)
    {
      var parts: seq<string> := [];
      for i := 0 to |columns|
        invariant parts == Assignments(NonStar(columns[..i]))
      {
        assert columns[..i + 1] == columns[..i] + [columns[i]];
        NonStarAppend(columns[..i], columns[i]);
        if columns[i] == Star {
          continue;
        }
        AssignmentsAppend(NonStar(columns[..i]), columns[i]);
        parts := parts + [Assignment(columns[i])];
      }
      assert columns[..|columns|] == columns;
      s := Join(parts, ", ");
    }

    /**
     * The SQL text of the descriptor. A cached statement is returned as it
     * is, whatever the fields hold now; otherwise the statement is rendered
     * from the current fields and, when non-empty, cached.
     */
    method String() returns (s: string)
      modifies this`sqlStmt
      ensures s == sqlStmt
      ensures old(sqlStmt) != "" ==> s == old(sqlStmt)
      ensures old(sqlStmt) == "" ==> s == Render(table, command, columns, filters)
    {
      if sqlStmt != "" {
        return sqlStmt;
      }
      if Table() == "" || Command() == "" {
        RenderEmptyIff(table, command, columns, filters);
        return "";
      }
      var tableName, cmd := Table(), Command();
      if cmd == "INSERT" || cmd == "REPLACE" {
        var params := Params();
        sqlStmt := cmd + " INTO " + tableName + " (" + Columns() + ") VALUES (" + params + ")";
      } else if cmd == "SELECT" {
        sqlStmt := cmd + " " + Columns() + " FROM " + tableName;
      } else if cmd == "UPDATE" {
        var setters := Setters();
        sqlStmt := cmd + " " + tableName + " SET " + setters;
      } else if cmd == "DELETE" {
        sqlStmt := "DELETE FROM " + tableName;
      } else {
        RenderEmptyIff(table, command, columns, filters);
        return "";
      }
      assert sqlStmt == CommandClause(tableName, cmd, columns);
      if |filters| > 0 {
        var conditions := Filters();
        sqlStmt := sqlStmt + (" WHERE " + conditions);
      }
      RenderClauses(table, command, columns, filters);
      s := sqlStmt;
    }
  }

  /**
   * Rendering twice gives the same text, and once a statement is cached,
   * replacing the columns in between does not change what is returned.
   */
  method RenderAgain(q: Query, columns: seq<string>) returns (first: string, second: string, third: string)
    modifies q
    ensures old(q.sqlStmt) != "" ==> first == old(q.sqlStmt)
    ensures old(q.sqlStmt) == "" ==> first == Render(old(q.table), old(q.command), old(q.columns), old(q.filters))
    ensures second == first
    ensures first != "" ==> third == first
    ensures q.columns == columns
  {
    first := q.String();
    second := q.String();
    q.columns := columns;
    third := q.String();
  }
}
