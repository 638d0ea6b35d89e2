/** The environment an executor runs in: variables for the child process and the document being reviewed. */
module Env {
  import opened Wrappers

  /** The document an agent works on; `workingDir` is a path, empty by default. */
  datatype DocumentContext = DocumentContext(
    documentId: string,
    documentTitle: Option<string>,
    documentContent: string,
    workingDir: string)

  /** `DocumentContext::default`: every field empty. */
  function DefaultDocumentContext(): (d: DocumentContext)
    ensures d.documentId == "" && d.documentTitle == None
    ensures d.documentContent == "" && d.workingDir == ""
  {
    DocumentContext("", None, "", "")
  }

  /** A context for a document with no title and the default working directory. */
  function NewDocumentContext(documentId: string, documentContent: string): (d: DocumentContext)
    ensures d.documentId == documentId && d.documentContent == documentContent
    ensures d.documentTitle == None && d.workingDir == DefaultDocumentContext().workingDir
  {
    DocumentContext(documentId, None, documentContent, DefaultDocumentContext().workingDir)
  }

  function WithTitle(d: DocumentContext, title: string): (r: DocumentContext)
    ensures r.documentTitle == Some(title)
    ensures r.documentId == d.documentId && r.documentContent == d.documentContent
    ensures r.workingDir == d.workingDir
  {
    d.(documentTitle := Some(title))
  }

  function WithWorkingDir(d: DocumentContext, dir: string): (r: DocumentContext)
    ensures r.workingDir == dir
    ensures r.documentId == d.documentId && r.documentContent == d.documentContent
    ensures r.documentTitle == d.documentTitle
  {
    d.(workingDir := dir)
  }

  /** The builder chain of the crate's test: id, content, title and directory all as given. */
  lemma BuilderChain()
    ensures var d := WithWorkingDir(WithTitle(NewDocumentContext("doc-123", "Hello world"), "My Document"), "/tmp/glow");
      && d.documentId == "doc-123"
      && d.documentContent == "Hello world"
      && d.documentTitle == Some("My Document")
      && d.workingDir == "/tmp/glow"
  {
  }

  /** The right-biased union of two variable maps: keys of `b` take `b`'s value. */
  function MergeVars(a: map<string, string>, b: map<string, string>): (r: map<string, string>)
    ensures r.Keys == a.Keys + b.Keys
    ensures forall k :: k in b ==> r[k] == b[k]
    ensures forall k :: k in a && k !in b ==> r[k] == a[k]
  {
    a + b
  }

  /** Environment variables for the child process together with the document context. */
  class ExecutionEnv {
    var vars: map<string, string>
    var documentContext: DocumentContext

    /** `ExecutionEnv::new`: no variables and the default context. */
    constructor ()
      ensures vars == map[] && documentContext == DefaultDocumentContext()
    {
      vars := map[];
      documentContext := DefaultDocumentContext();
    }

    /** `ExecutionEnv::from_document`: no variables and the given context. */
    constructor FromDocument(ctx: DocumentContext)
      ensures vars == map[] && documentContext == ctx
    {
      vars := map[];
      documentContext := ctx;
    }

    function Get(key: string): (r: Option<string>)
      reads this
      ensures r.Some? <==> key in vars
      ensures r.Some? ==> r.value == vars[key]
    {
      if key in vars then Some(vars[key]) else None
    }

    function ContainsKey(key: string): (b: bool)
      reads this
      ensures b <==> Get(key).Some?
    {
      key in vars
    }

    function WorkingDir(): (dir: string)
      reads this
      ensures dir == documentContext.workingDir
    {
      documentContext.workingDir
    }

    /** Sets one variable, replacing an earlier value. */
    method Insert(key: string, value: string)
      modifies this
      ensures vars == old(vars)[key := value]
      ensures documentContext == old(documentContext)
      ensures Get(key) == Some(value)
      ensures forall k :: k != key ==> Get(k) == old(Get(k))
    {
      vars := vars[key := value];
    }

    /** Adds every variable of `other`; on a shared key the value from `other` wins. */
    method Merge(other: map<string, string>)
      modifies this
      ensures vars == MergeVars(old(vars), other)
      ensures documentContext == old(documentContext)
    {
      vars := vars + other;
    }

    /** `with_overrides`: a merge, returning the same environment. */
    method WithOverrides(overrides: map<string, string>) returns (self: ExecutionEnv)
      modifies this
      ensures self == this
      ensures vars == MergeVars(old(vars), overrides)
      ensures documentContext == old(documentContext)
    {
      Merge(overrides);
      self := this;
    }
  }

  /** The crate's merge example: KEY1 kept, KEY2 overridden, KEY3 added. */
  method MergeExample() returns (key1: Option<string>, key2: Option<string>, key3: Option<string>)
    ensures key1 == Some("value1") && key2 == Some("overridden") && key3 == Some("value3")
  {
    var env := new ExecutionEnv();
    env.Insert("KEY1", "value1");
    env.Insert("KEY2", "value2");
    env.Merge(map["KEY2" := "overridden", "KEY3" := "value3"]);
    key1 := env.Get("KEY1");
    key2 := env.Get("KEY2");
    key3 := env.Get("KEY3");
  }
}
