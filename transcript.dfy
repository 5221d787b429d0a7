/** The transcript of a run and its export as a standalone HTML document
    (`downloadResults`, App.js:127-171). The document is a fixed template with
    the two prompts and every record interpolated raw: nothing is escaped. */
module Transcript {
  import opened Gemini
  import Decimal

  /** One completed turn-pair: `{iteration, agent, world}` (App.js:112-116). */
  datatype TurnRecord = TurnRecord(iteration: nat, agent: JsText, world: JsText)

  /** The fixed text of the template, in the order it appears: around the
      prompts and records of the document, and around the fields of one
      record. */
  datatype Layout = Layout(
    head: string, betweenPrompts: string, beforeResults: string, tail: string,
    recordHead: string, beforeAgent: string, beforeWorld: string, recordTail: string)

  /** The template of App.js:128-171. */
  const Page: Layout := Layout(
    // head
    "<!DOCTYPE html>\n" +
    "<html lang=\"en\">\n" +
    "<head>\n" +
    "    <meta charset=\"UTF-8\">\n" +
    "    <meta name=\"viewport\" content=\"width=device-width, initial-scale=1.0\">\n" +
    "    <title>Simulation Results</title>\n" +
    "    <link href=\"https://cdn.jsdelivr.net/npm/tailwindcss@2.2.19/dist/tailwind.min.css\" rel=\"stylesheet\">\n" +
    "    <style>\n" +
    "        pre {\n" +
    "            white-space: pre-wrap;\n" +
    "            word-wrap: break-word;\n" +
    "        }\n" +
    "    </style>\n" +
    "</head>\n" +
    "<body class=\"bg-gray-100\">\n" +
    "    <div class=\"max-w-4xl mx-auto p-4\">\n" +
    "        <h1 class=\"text-2xl font-bold mb-4\">Simulation Results</h1>\n" +
    "        <div class=\"mb-4\">\n" +
    "            <h2 class=\"text-xl font-semibold\">Robot Prompt</h2>\n" +
    "            <pre class=\"bg-blue-50 p-3 rounded\">",
    // betweenPrompts
    "</pre>\n" +
    "        </div>\n" +
    "        <div class=\"mb-4\">\n" +
    "            <h2 class=\"text-xl font-semibold\">World Prompt</h2>\n" +
    "            <pre class=\"bg-green-50 p-3 rounded\">",
    // beforeResults
    "</pre>\n" +
    "        </div>\n" +
    "        <div>\n" +
    "            <h2 class=\"text-xl font-semibold\">Results</h2>\n" +
    "            ",
    // tail
    "\n" +
    "        </div>\n" +
    "    </div>\n" +
    "</body>\n" +
    "</html>",
    // recordHead
    "\n" +
    "                <div class=\"mb-4\">\n" +
    "                    <h3 class=\"font-bold\">Iteration ",
    // beforeAgent
    "</h3>\n" +
    "                    <div class=\"bg-blue-50 p-3 rounded mb-2\">\n" +
    "                        <strong>Agent:</strong>\n" +
    "                        <pre>",
    // beforeWorld
    "</pre>\n" +
    "                    </div>\n" +
    "                    <div class=\"bg-green-50 p-3 rounded\">\n" +
    "                        <strong>World:</strong>\n" +
    "                        <pre>",
    // recordTail
    "</pre>\n" +
    "                    </div>\n" +
    "                </div>\n" +
    "            ")

  /** The markup of one record (the arrow passed to `results.map`). */
  function RecordHtml(t: Layout, r: TurnRecord): string {
    t.recordHead + Decimal.Digits(r.iteration) + t.beforeAgent + Render(r.agent) +
    t.beforeWorld + Render(r.world) + t.recordTail
  }

  /** `results.map(...).join('')`. */
  function RecordsHtml(t: Layout, results: seq<TurnRecord>): string {
    if results == [] then "" else RecordHtml(t, results[0]) + RecordsHtml(t, results[1..])
  }

  /** The exported document. */
  function Document(t: Layout, robotPrompt: string, worldPrompt: string, results: seq<TurnRecord>): string {
    t.head + robotPrompt + t.betweenPrompts + worldPrompt + t.beforeResults +
    RecordsHtml(t, results) + t.tail
  }

  /** Where the markup of the records starts in the document. */
  function ResultsOffset(t: Layout, robotPrompt: string, worldPrompt: string): nat {
    |t.head| + |robotPrompt| + |t.betweenPrompts| + |worldPrompt| + |t.beforeResults|
  }

  /** Joining is compositional: the markup of two runs of records is the
      markup of the first followed by that of the second. */
  lemma {:induction false} RecordsHtmlConcat(t: Layout, a: seq<TurnRecord>, b: seq<TurnRecord>)
    ensures RecordsHtml(t, a + b) == RecordsHtml(t, a) + RecordsHtml(t, b)
  {
    if a == [] {
      assert a + b == b;
    } else {
      assert (a + b)[0] == a[0];
      assert (a + b)[1..] == a[1..] + b;
      RecordsHtmlConcat(t, a[1..], b);
    }
  }

  /** Both prompts appear verbatim, the robot prompt right after the fixed
      head and the world prompt after the fixed text between them. */
  lemma PromptsVerbatim(t: Layout, robotPrompt: string, worldPrompt: string, results: seq<TurnRecord>)
    ensures var d := Document(t, robotPrompt, worldPrompt, results);
      var w := |t.head| + |robotPrompt| + |t.betweenPrompts|;
      d[..|t.head|] == t.head &&
      d[|t.head|..|t.head| + |robotPrompt|] == robotPrompt &&
      d[w..w + |worldPrompt|] == worldPrompt
  {
  }

  /** A record's iteration number and both of its texts appear verbatim in
      its markup, in that order. */
  lemma RecordTextsVerbatim(t: Layout, r: TurnRecord)
    ensures var h := RecordHtml(t, r);
      var n := Decimal.Digits(r.iteration);
      var a := |t.recordHead| + |n| + |t.beforeAgent|;
      var w := a + |Render(r.agent)| + |t.beforeWorld|;
      h[|t.recordHead|..|t.recordHead| + |n|] == n &&
      h[a..a + |Render(r.agent)|] == Render(r.agent) &&
      h[w..w + |Render(r.world)|] == Render(r.world)
  {
  }

  lemma Middle(a: string, b: string, c: string)
    ensures (a + b + c)[|a|..|a| + |b|] == b
  {
  }

  lemma Regroup(p: string, a: string, h: string, b: string, z: string)
    ensures p + (a + h + b) + z == (p + a) + h + (b + z)
  {
  }

  /** The markup of the records splits around record j. */
  lemma RecordsHtmlAt(t: Layout, results: seq<TurnRecord>, j: nat)
    requires j < |results|
    ensures RecordsHtml(t, results) ==
      RecordsHtml(t, results[..j]) + RecordHtml(t, results[j]) + RecordsHtml(t, results[j + 1..])
  {
    assert results == results[..j] + [results[j]] + results[j + 1..];
    RecordsHtmlConcat(t, results[..j] + [results[j]], results[j + 1..]);
    RecordsHtmlConcat(t, results[..j], [results[j]]);
    assert RecordsHtml(t, [results[j]]) == RecordHtml(t, results[j]);
  }

  /** Record j's markup sits in the document after the markup of the j
      records before it. */
  lemma RecordInPlace(t: Layout, robotPrompt: string, worldPrompt: string, results: seq<TurnRecord>, j: nat)
    requires j < |results|
    ensures var d := Document(t, robotPrompt, worldPrompt, results);
      var h := RecordHtml(t, results[j]);
      var o := ResultsOffset(t, robotPrompt, worldPrompt) + |RecordsHtml(t, results[..j])|;
      o + |h| <= |d| && d[o..o + |h|] == h
  {
    var h := RecordHtml(t, results[j]);
    RecordsHtmlAt(t, results, j);
    var p := t.head + robotPrompt + t.betweenPrompts + worldPrompt + t.beforeResults;
    var a, b := RecordsHtml(t, results[..j]), RecordsHtml(t, results[j + 1..]);
    Regroup(p, a, h, b, t.tail);
    Middle(p + a, h, b + t.tail);
  }

  /** Records appear in iteration order: record j's markup ends before
      record k's begins. */
  lemma RecordsInOrder(t: Layout, results: seq<TurnRecord>, j: nat, k: nat)
    requires j < k <= |results|
    ensures |RecordsHtml(t, results[..j])| + |RecordHtml(t, results[j])| <= |RecordsHtml(t, results[..k])|
  {
    assert results[..k] == results[..j] + [results[j]] + results[j + 1..k];
    RecordsHtmlConcat(t, results[..j] + [results[j]], results[j + 1..k]);
    RecordsHtmlConcat(t, results[..j], [results[j]]);
    assert RecordsHtml(t, [results[j]]) == RecordHtml(t, results[j]);
  }

  /** Exporting after one more record adds exactly that record's markup
      before the closing tags: a partial run's export is the start of the
      longer one. */
  lemma DocumentGrows(t: Layout, robotPrompt: string, worldPrompt: string, results: seq<TurnRecord>, r: TurnRecord)
    ensures var d := Document(t, robotPrompt, worldPrompt, results);
      |t.tail| <= |d| &&
      Document(t, robotPrompt, worldPrompt, results + [r]) == d[..|d| - |t.tail|] + RecordHtml(t, r) + t.tail
  {
    RecordsHtmlConcat(t, results, [r]);
    assert RecordsHtml(t, [r]) == RecordHtml(t, r);
    var p := t.head + robotPrompt + t.betweenPrompts + worldPrompt + t.beforeResults;
    var a := RecordsHtml(t, results);
    var h := RecordHtml(t, r);
    Regroup(p, a, h, "", t.tail);
    assert a + h + "" == a + h;
    assert "" + t.tail == t.tail;
    var d := Document(t, robotPrompt, worldPrompt, results);
    assert d == (p + a) + t.tail;
    assert d[..|d| - |t.tail|] == p + a;
  }
}
