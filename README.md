# Retrieval-augmented chatbot glue, modelled in Dafny

This project models the deterministic logic of a small retrieval-augmented chatbot and proves
properties of it. The chatbot's heavy lifting (sentence embeddings, the chromadb vector store,
the web crawler, the chat model) sits in libraries; what the repository itself decides is:

- **The vector-store glue** (`chroma.py`, class `Chroma_db`):
  - `setup_document` walks the category folders of a data directory into a four-column document table (`id`, `class`, `title`, `content`).
  - `process_chroma` fills the chromadb collection "Articles" once, in batches.
  - `ask_chromadb` builds the three-message prompt from the documents a query retrieves.
- **The crawler helpers** (`crawler/scrap.py`):
  - the short file name derived from a page URL;
  - the Markdown text saved for a page;
  - the batches of URLs handed to the crawler;
  - the `--limit` truncation of the URL list.
- **The Markdown counter** (`crawler/counter.py`): a walk over a directory tree that counts `.md` files per folder and in total.

Modules:

- `Common` holds the exceptions the code can raise and a `Result` type.
- `Text` models the Python string operations the code uses: `str.split` on one character, `join`, `replace` of one character, `endswith` and `strip`.
- `Batching` models `for i in range(0, n, size): s[i:i+size]`.
- `Chroma`, `Scrap` and `Counter` follow the three source files.

Code that updates state step by step is modelled imperatively:

- `setup_document`'s nested loops;
- the batch loop of `process_chroma` against a `Collection` class;
- the URL batch loop;
- the counter loop.

Each such method is proved equal to a specification function, and the properties are proved about that function.

Inputs the code obtains from the outside world are parameters:

- the directory tree, as a map from a directory path to its listing;
- the `uuid.uuid4()` supply, where the k-th call gives `uuid(k)`;
- the embedding model, an opaque function giving one vector per text;
- chromadb's nearest-neighbour search, an opaque function;
- a URL's path component and its MD5 hex digest;
- the `os.walk` sequence.

Python's `range` with step 0 raises `ValueError`; this is modelled as the error `ZeroStep`. A negative step gives no iterations.

`os.path.join` is modelled for both path conventions. The class column is `folder.split('\\')[1]`, as the code has it. On a POSIX system, when neither the base path nor the category name holds a backslash, the joined folder path has none either, so the code raises `IndexError` on the first file; the model does the same (`Chroma.PosixCategory`). A POSIX category name that holds a backslash, such as `a\b`, gives the class `b` (`Chroma.CategoryOf` covers every path). On Windows, with a non-empty base path that holds no backslash and does not end in `/`, the class is the category folder's name (`Chroma.WindowsCategory`). A base path that ends in `/`, such as `data/`, gives folder paths without a backslash, so the code raises `IndexError` as on POSIX. A base path with one backslash, such as `C:\data`, gives every category folder the class `data` (`Chroma.WindowsNestedBaseCategory`).

## Model

| member | source | states |
|---|---|---|
| Text.Split | chroma.py:50 | `str.split` on one character: at least one part, and no part contains the separator |
| Text.SplitSingleIff | chroma.py:50 | splitting gives exactly one piece if and only if the separator does not occur |
| Text.SplitJoin | chroma.py:103 | joining parts free of the separator and splitting again gives back the parts |
| Text.JoinSplit | chroma.py:103 | splitting and joining again on the same character gives back the string |
| Text.JoinLength | chroma.py:103 | a join puts exactly one separator between neighbours and none at the ends: its length is the total length plus one per gap |
| Text.JoinPlacement | chroma.py:103 | part i of a join appears whole right after the parts before it and one separator for each of them, and a separator follows every part but the last |
| Text.SplitSecond | chroma.py:66 | when the separator occurs, the second piece of the split is the text between the first separator and the next separator or the end |
| Text.Replace | crawler/scrap.py:51-52 | `str.replace` of one character: same length; each occurrence of the target becomes the replacement and every other character is kept |
| Text.StripEmptyIff | crawler/scrap.py:85 | `strip()` leaves nothing if and only if every character is Python white space |
| Batching.ChunksSizes | crawler/scrap.py:101-102 | every batch `s[i:i+size]` for `i` in `range(0, n, size)` is non-empty and holds at most `size` elements |
| Batching.FlattenChunks | chroma.py:79-82 | the batches, put back together in order, are the input sequence |
| Batching.ChunksCount | crawler/scrap.py:101 | there are ceil(n/size) batches: none for an empty sequence; otherwise enough to hold n elements, and one fewer would not be |
| Batching.ChunkAt | crawler/scrap.py:101-102 | batch j is the slice from offset j·size to min((j+1)·size, n) |
| Batching.OffsetIsProduct | crawler/scrap.py:101 | the j-th offset of `range(0, n, size)` is j·size |
| Batching.DistinctCardinality | chroma.py:84-88 | a sequence of distinct ids has as many distinct elements as positions |
| Chroma.Categories | chroma.py:49-50 | a directory entry is kept as a category if and only if its name contains no `.`; the kept names come from the listing |
| Chroma.CategoriesAppend | chroma.py:50 | the category filter distributes over concatenation of listings, so the kept names stay in listing order and each listed name is kept at most once |
| Chroma.DocumentId | chroma.py:62 | `uuid4().hex[:24]` is 24 lower-case hex digits, with the version digit 4 at index 12 and the variant digit 8, 9, a or b at index 16, and it is a prefix of the uuid |
| Chroma.CategoryOf | chroma.py:66 | `folder.split('\\')[1]` fails with IndexError exactly when the folder path has no backslash; otherwise the class is the text between the path's first backslash and the next backslash or the end |
| Chroma.SetupDocument | chroma.py:47-69 | the nested loops return exactly the table, or the error, of the specification `DocumentTable` |
| Chroma.AddFileBuilt | chroma.py:61-68 | one pass of the inner loop appends one row: the next uuid's id, the folder's class, the file name and the file text |
| Chroma.AddFolderBuilt | chroma.py:61-68 | the inner loop appends one row per listed entry, in listing order, and every entry is a readable file |
| Chroma.AddCategoriesBuilt | chroma.py:60-68 | the outer loop appends one row per visited (folder, file) pair, in folder-then-file order |
| Chroma.DocumentTableRows | chroma.py:54-68 | the four columns have equal length, one row per file of each kept category folder in folder-then-file order; the title is the file name, the content is the file text, the class is the folder's class, and row j's id comes from the j-th uuid |
| Chroma.DocumentIdsDistinct | chroma.py:62-65 | when the uuid supply gives distinct 24-digit prefixes, the id column has no repetition |
| Chroma.WindowsCategory | chroma.py:66 | on Windows, for a non-empty base that holds no backslash and does not end in `/`, and a name without a backslash, the class of the joined folder is that name |
| Chroma.WindowsNestedBaseCategory | chroma.py:66 | on Windows, a base path with one backslash gives every category folder the base's second component as its class, whatever the folder's own name |
| Chroma.PosixCategory | chroma.py:66 | on POSIX, for a base and a name that hold no backslash, the joined folder path has none either, so the class lookup raises IndexError |
| Chroma.BatchEntries | chroma.py:84-88 | one add call with distinct ids stores exactly those ids, each with its own document and embedding |
| Chroma.Collection.Add | chroma.py:84-88 | `collection.add` with equal-length lists of fresh, distinct ids adds exactly those entries, and the count grows by the number of ids |
| Chroma.PopulatedKeys | chroma.py:79-88 | the ids stored by the batched population are exactly the table's ids |
| Chroma.PopulatedDocuments | chroma.py:79-88 | every id is stored with the content of its own row |
| Chroma.PopulatedEntries | chroma.py:79-88 | with distinct ids, the population holds one entry per row, and each row's id maps to that row's content |
| Chroma.ProgressStep | chroma.py:79-88 | one add call keeps the loop invariant: the batch is distinct and fresh, and what is stored plus what remains is still the whole population |
| Chroma.ProgressDone | chroma.py:79-88 | when the loop ends, the logged batches are all the chunks of the id column and the collection holds the whole population, one entry per row |
| Chroma.AddNextBatch | chroma.py:80-88 | one iteration adds rows [i, min(i+size, n)) as one add call and logs exactly that batch of ids |
| Chroma.AddInBatches | chroma.py:79-88 | the loop makes one add call per consecutive slice of the table; the slices are the chunks of the id column, and the count ends equal to the number of rows |
| Chroma.ProcessChroma | chroma.py:71-89 | a non-empty collection is left unchanged. On an empty one, setup errors propagate; a zero batch size raises; a negative one adds nothing; otherwise the table is added in consecutive batches and the count becomes the number of rows |
| Chroma.Context | chroma.py:102-103 | with no retrieved documents the context is exactly "No context found."; otherwise its length is the documents' total length plus one newline per gap between neighbours |
| Chroma.ContextPlacement | chroma.py:103 | for any retrieved documents, newlines inside them included, document i appears whole right after the documents before it and one newline for each of them, and a newline follows every document but the last |
| Chroma.ContextRoundTrip | chroma.py:103 | documents free of newlines are recovered by splitting the context on newlines |
| Chroma.AskChromaDb | chroma.py:91-112 | the prompt has exactly three messages: the fixed system instruction, "Contexte : " + context, and "Question : " + the query verbatim |
| Chroma.AskDependsOnlyOnQuery | chroma.py:93-102 | the prompt depends on the collection only through the documents returned for the single query embedding of `[user_query]` with `nb_context` results |
| Scrap.Sanitize | crawler/scrap.py:52 | replacing `?`, `&` and `=` by `_` keeps the length and changes exactly those characters |
| Scrap.Stem | crawler/scrap.py:51-52 | a path of at most one character gives the stem "index"; otherwise the stem is one character shorter than the path |
| Scrap.StemChars | crawler/scrap.py:51-52 | past the first character, each path character is kept, or becomes `_` when it is `/`, `?`, `&` or `=` |
| Scrap.StemSafe | crawler/scrap.py:51-52 | the stem never contains `/`, `?`, `&` or `=` |
| Scrap.NameFromStem | crawler/scrap.py:55-66 | the chosen name ends in `.md` and has at most max(max_length, 11) characters |
| Scrap.GenerateShortFilename | crawler/scrap.py:46-66 | the file name always ends in `.md` and has at most max(max_length, 11) characters |
| Scrap.ShortForm | crawler/scrap.py:55-56 | a stem of at most max_length − 3 characters is used whole with `.md`, so the name fits in max_length |
| Scrap.LongStem | crawler/scrap.py:59-64 | for a longer stem with max_length > 12, the name is the first max_length − 12 stem characters, `_`, 8 hash digits and `.md`, exactly max_length long |
| Scrap.LongForm | crawler/scrap.py:59-64 | the same for the name of a URL path: exactly max_length characters, a prefix of the stem, then `_`, the first 8 digest digits and `.md` |
| Scrap.HashForm | crawler/scrap.py:62-66 | for a longer stem with max_length ≤ 12, the name is the 8 hash digits followed by `.md` |
| Scrap.FilenameSafe | crawler/scrap.py:51-66 | the file name never contains `/`, `?`, `&` or `=` |
| Scrap.IndexName | crawler/scrap.py:51-56 | the path "" or "/" gives "index.md" whenever max_length ≥ 8 |
| Scrap.ShortNameKeepsPath | crawler/scrap.py:51-56 | for "/" plus a short name free of unsafe characters, the file name is that name plus `.md`, so the path can be read back from it |
| Scrap.DefaultLongName | crawler/scrap.py:62-64 | with the default max_length of 20, a long path gives 8 path characters, `_`, 8 hash digits and `.md`: 20 characters |
| Scrap.SaveAsMarkdown | crawler/scrap.py:68-96 | the text starts with "# " + url + a blank line. The content follows verbatim when it is a string with a non-white-space character; otherwise "No usable content extracted.\n" follows. The file name is the short name of at most 20 characters |
| Scrap.CrawlWebsite | crawler/scrap.py:98-102 | the loop yields the batches `urls[i:i+batch_size]` in order: an error for batch size 0, none for a negative size, and the chunks of the list otherwise |
| Scrap.CrawlBatches | crawler/scrap.py:101-102 | the URL batches concatenate back to the list; each is non-empty with at most batch_size URLs, and there are ceil(n/batch_size) of them |
| Scrap.ApplyLimit | crawler/scrap.py:145-147 | the kept list is a prefix of the URL list, of length `limit` when 0 < limit < n, and the whole list otherwise |
| Scrap.ApplyLimitIdempotent | crawler/scrap.py:145-147 | applying the same limit twice changes nothing more |
| Counter.MarkdownFiles | crawler/counter.py:11-12 | a folder's count never exceeds the number of its files |
| Counter.MarkdownFilesMembers | crawler/counter.py:11 | a file name is counted if and only if it ends with ".md" |
| Counter.MarkdownFilesAppend | crawler/counter.py:11 | the filter distributes over concatenation of file lists |
| Counter.CountMarkdownFiles | crawler/counter.py:6-19 | the loop's final total and printed folder lines are those of the specification `Total` and `Reports` |
| Counter.TotalCountsAllFiles | crawler/counter.py:9-19 | the total is the number of ".md" names among all walked files, the sum of the per-folder counts |
| Counter.TotalMonotone | crawler/counter.py:6-13 | the running total never decreases as the walk proceeds |
| Counter.ReportsAddUp | crawler/counter.py:13-19 | the printed folder counts add up to the printed total |
| Counter.ReportsPositive | crawler/counter.py:15-16 | there are no more lines than walked folders, and every printed count is positive |
| Counter.ReportsOncePerFolder | crawler/counter.py:9-16 | since os.walk yields each folder once, no two printed lines name the same folder |
| Counter.ReportsFromWalk | crawler/counter.py:15-16 | every printed line names a walked folder with that folder's count |
| Counter.ReportedIff | crawler/counter.py:15-16 | for any walk, a walked folder is printed with its count if and only if that count is positive |

## Left out

- Embeddings: `set_embeddings`, `mean_pooling` and `load_model_tk` (tensors, floating point, downloaded weights) are an opaque function. Its only assumed property is one vector per input text.
- chromadb: persistence, `PersistentClient`, `get_or_create_collection` and the nearest-neighbour ranking of `query` are replaced by a `Collection` class holding a map from id to (document, embedding), and an opaque search function.
- Chroma.Collection.Add: requires the ids to be distinct and not yet stored, because chromadb's behaviour on a duplicate id is not modelled.
- Chroma.ProcessChroma: the count after population equals the number of rows only under the assumption that the uuid supply gives distinct 24-digit prefixes for the files read. uuid4 randomness is not modelled.
- `hashlib.md5` and `urllib.parse.urlparse` are not modelled: the URL's path and its 32-digit hex digest are inputs.
- File reading: `open(...).read()` succeeds for every file. A directory entry that is a directory raises, as in the code. Decoding errors and permission errors are not modelled.
- `os.path.join` is modelled only for entry names without separators, as `os.listdir` returns them. Absolute second components and Windows drive letters are not modelled.
- `download_sitemaps` and `parse_sitemaps` are not modelled: HTTP, XML parsing and set-based ordering.
- The crawl itself (`AsyncWebCrawler`, `arun_many`, asyncio) is not modelled: `Scrap.CrawlWebsite` yields the batches the crawler would receive. The per-result checks that decide whether `save_as_markdown` is called are not modelled either.
- File output in `save_as_markdown` (`os.makedirs`, the output path, the write, the exception handler) is not modelled: the method returns the file name and the text it would write.
- `main` is not modelled beyond the `--limit` truncation: argument parsing, the empty-list check and the exception handler are I/O and control around the modelled helpers.
- All `print` output is not modelled. The counter's printed lines are modelled as a sequence of (folder, count) reports.
- `app/app.py` (the Streamlit interface) and `model.py` (the LangChain chat model) are not part of this model.
