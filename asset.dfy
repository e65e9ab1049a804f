/**
 * Load-time resolution of a templates document: every template tree is rebuilt with its
 * stylesheet and template references anchored to the document and turned into handles, and every
 * style and template is published under its label.
 */
module Assets {
  import opened Wrappers
  import opened Ui
  import opened ElementStyles

  /** A template tree. Element and call nodes carry references that resolution turns into handles. */
  datatype TemplateNode =
    | Element(
        styleset: seq<string>,
        stylesetHandles: seq<Handle>,
        inlineStyle: Option<ElementStyle>,
        id: string,
        controller: string,
        attrs: seq<(string, string)>,
        children: seq<TemplateNode>)
    | Fragment(nodes: seq<TemplateNode>)
    | Text(text: string)
    | Call(
        inlineStyle: Option<ElementStyle>,
        template: string,
        templateHandle: Handle,
        params: seq<(string, string)>)

  /**
   * The collaborators of resolution: anchoring a written path to a base, requesting a handle for
   * a path, and resolving the asset paths inside a style.
   */
  datatype Loader = Loader(
    relative: (AssetPath, string) -> AssetPath,
    load: AssetPath -> Handle,
    resolveStyle: (ElementStyle, AssetPath) -> ElementStyle)

  /** The handle for a path written in the document at `base`. */
  function HandleFor(name: string, base: AssetPath, env: Loader): Handle {
    env.load(env.relative(base, name))
  }

  /** An inline style: absent stays absent, present is replaced by a resolved copy. */
  function VisitInline(inline: Option<ElementStyle>, base: AssetPath, env: Loader): Option<ElementStyle> {
    match inline
    case Some(style) => Some(env.resolveStyle(style, base))
    case None => None
  }

  /** Rebuild a template tree with every reference resolved against `base`; text leaves are kept as they are. */
  function VisitTemplateNode(node: TemplateNode, base: AssetPath, env: Loader): TemplateNode
    decreases node
  {
    match node
    case Element(styleset, _, inline, id, controller, attrs, children) =>
      Element(
        styleset,
        seq(|styleset|, i requires 0 <= i < |styleset| => HandleFor(styleset[i], base, env)),
        VisitInline(inline, base, env),
        id, controller, attrs,
        seq(|children|, i requires 0 <= i < |children| => VisitTemplateNode(children[i], base, env)))
    case Fragment(nodes) =>
      Fragment(seq(|nodes|, i requires 0 <= i < |nodes| => VisitTemplateNode(nodes[i], base, env)))
    case Text(_) => node
    case Call(inline, template, _, params) =>
      Call(VisitInline(inline, base, env), template, HandleFor(template, base, env), params)
  }

  // ---------------------------------------------------------------------------------------------
  // What resolution keeps and what it produces.

  /** A node with its handles dropped and its inline styles reduced to whether they are present. */
  function Erase(node: TemplateNode): TemplateNode
    decreases node
  {
    match node
    case Element(styleset, _, inline, id, controller, attrs, children) =>
      Element(styleset, [], EraseInline(inline), id, controller, attrs,
        seq(|children|, i requires 0 <= i < |children| => Erase(children[i])))
    case Fragment(nodes) => Fragment(seq(|nodes|, i requires 0 <= i < |nodes| => Erase(nodes[i])))
    case Text(_) => node
    case Call(inline, template, _, params) => Call(EraseInline(inline), template, Handle(0), params)
  }

  function EraseInline(inline: Option<ElementStyle>): Option<ElementStyle> {
    if inline.Some? then Some(ElementStyle([])) else None
  }

  /**
   * Resolution keeps the shape of the tree: node kinds, stylesheet names, ids, controllers,
   * attributes, called templates and parameters, the number and order of children, text, and
   * whether each inline style is present.
   */
  lemma {:induction false} VisitKeepsShape(node: TemplateNode, base: AssetPath, env: Loader)
    ensures Erase(VisitTemplateNode(node, base, env)) == Erase(node)
    decreases node
  {
    match node
    case Element(styleset, handles, inline, id, controller, attrs, children) =>
      var visited := seq(|children|, i requires 0 <= i < |children| => VisitTemplateNode(children[i], base, env));
      forall i | 0 <= i < |children|
        ensures Erase(visited[i]) == Erase(children[i])
      {
        VisitKeepsShape(children[i], base, env);
      }
      assert seq(|visited|, i requires 0 <= i < |visited| => Erase(visited[i]))
          == seq(|children|, i requires 0 <= i < |children| => Erase(children[i]));
    case Fragment(nodes) =>
      var visited := seq(|nodes|, i requires 0 <= i < |nodes| => VisitTemplateNode(nodes[i], base, env));
      forall i | 0 <= i < |nodes|
        ensures Erase(visited[i]) == Erase(nodes[i])
      {
        VisitKeepsShape(nodes[i], base, env);
      }
      assert seq(|visited|, i requires 0 <= i < |visited| => Erase(visited[i]))
          == seq(|nodes|, i requires 0 <= i < |nodes| => Erase(nodes[i]));
    case Text(_) =>
    case Call(_, _, _, _) =>
  }

  /**
   * Every reference in a tree is resolved against `base`: each element holds one handle per
   * stylesheet name, in order, and each call holds the handle of the template it calls.
   */
  predicate ReferencesResolved(node: TemplateNode, base: AssetPath, env: Loader)
    decreases node
  {
    match node
    case Element(styleset, handles, _, _, _, _, children) =>
      && |handles| == |styleset|
      && (forall i :: 0 <= i < |styleset| ==> handles[i] == HandleFor(styleset[i], base, env))
      && (forall i :: 0 <= i < |children| ==> ReferencesResolved(children[i], base, env))
    case Fragment(nodes) => forall i :: 0 <= i < |nodes| ==> ReferencesResolved(nodes[i], base, env)
    case Text(_) => true
    case Call(_, template, handle, _) => handle == HandleFor(template, base, env)
  }

  /** After resolution every reference in the tree is resolved against `base`. */
  lemma {:induction false} VisitResolvesReferences(node: TemplateNode, base: AssetPath, env: Loader)
    ensures ReferencesResolved(VisitTemplateNode(node, base, env), base, env)
    decreases node
  {
    match node
    case Element(_, _, _, _, _, _, children) =>
      forall i | 0 <= i < |children|
        ensures ReferencesResolved(VisitTemplateNode(children[i], base, env), base, env)
      {
        VisitResolvesReferences(children[i], base, env);
      }
    case Fragment(nodes) =>
      forall i | 0 <= i < |nodes|
        ensures ReferencesResolved(VisitTemplateNode(nodes[i], base, env), base, env)
      {
        VisitResolvesReferences(nodes[i], base, env);
      }
    case Text(_) =>
    case Call(_, _, _, _) =>
  }

  /** Inline styles of an element or a call: absent stays absent, present becomes the resolved copy. */
  lemma VisitResolvesInline(node: TemplateNode, base: AssetPath, env: Loader)
    requires node.Element? || node.Call?
    ensures node.inlineStyle.None? ==> VisitTemplateNode(node, base, env).inlineStyle.None?
    ensures node.inlineStyle.Some?
            ==> VisitTemplateNode(node, base, env).inlineStyle == Some(env.resolveStyle(node.inlineStyle.value, base))
  {
  }

  // ---------------------------------------------------------------------------------------------
  // Loading a templates document.

  /** A template: its optional tree. */
  datatype TemplateAsset = TemplateAsset(content: Option<TemplateNode>)

  /** A templates document: named styles and named templates. */
  datatype AssetSerial = AssetSerial(styles: map<string, ElementStyle>, templates: map<string, TemplateAsset>)

  /** What a document publishes under a label. */
  datatype LabeledAsset = StyleLabeled(style: ElementStyle) | TemplateLabeled(template: TemplateAsset)

  function StyleLabel(key: string): string {
    "styles/" + key
  }

  function TemplateLabel(key: string): string {
    "templates/" + key
  }

  /** The labels `labelOf` gives to a set of keys. */
  function Labels(labelOf: string -> string, keys: set<string>): set<string> {
    set k | k in keys :: labelOf(k)
  }

  /** A style as published: resolved against the document path labelled with the style's own label. */
  function PublishedStyle(docPath: string, key: string, style: ElementStyle, env: Loader): ElementStyle {
    env.resolveStyle(style, AssetPath(docPath, Some(StyleLabel(key))))
  }

  /** A template as published: its tree, if it has one, resolved against the document path labelled with the template's label. */
  function PublishedTemplate(docPath: string, key: string, template: TemplateAsset, env: Loader): TemplateAsset {
    match template.content
    case Some(content) =>
      template.(content := Some(VisitTemplateNode(content, AssetPath(docPath, Some(TemplateLabel(key))), env)))
    case None => template
  }

  /** A template with no tree is published without one; a template with a tree keeps a tree. */
  lemma PublishedTemplateContent(docPath: string, key: string, template: TemplateAsset, env: Loader)
    ensures PublishedTemplate(docPath, key, template, env).content.None? <==> template.content.None?
  {
  }

  /** Different keys get different labels, and no style label is a template label. */
  lemma LabelsDistinct(k1: string, k2: string)
    ensures StyleLabel(k1) == StyleLabel(k2) ==> k1 == k2
    ensures TemplateLabel(k1) == TemplateLabel(k2) ==> k1 == k2
    ensures StyleLabel(k1) != TemplateLabel(k2)
  {
    assert StyleLabel(k1)[7..] == k1 && StyleLabel(k2)[7..] == k2;
    assert TemplateLabel(k1)[10..] == k1 && TemplateLabel(k2)[10..] == k2;
    assert StyleLabel(k1)[0] == 's' && TemplateLabel(k2)[0] == 't';
  }

  /** Taking one more key out of the remaining ones adds its label to the labels of those done. */
  lemma LabelsGrow(labelOf: string -> string, all: set<string>, remaining: set<string>, key: string)
    requires key in remaining && remaining <= all
    ensures Labels(labelOf, all - (remaining - {key})) == Labels(labelOf, all - remaining) + {labelOf(key)}
  {
    assert all - (remaining - {key}) == (all - remaining) + {key};
  }

  /** The asset subsystem's view of one document load: the document's path and what it has published. */
  class LoadContext {
    const path: string
    var labeled: map<string, LabeledAsset>

    constructor(path: string)
      ensures this.path == path && labeled == map[]
    {
      this.path := path;
      labeled := map[];
    }

    /** Publish `asset` under the label `name`. */
    method AddLabeledAsset(name: string, asset: LabeledAsset)
      modifies this
      ensures labeled == old(labeled)[name := asset]
    {
      labeled := labeled[name := asset];
    }

    /** Publish each style under "styles/<key>", resolved against the document path carrying that label. */
    method PublishStyles(docStyles: map<string, ElementStyle>, env: Loader)
      modifies this
      ensures labeled.Keys == old(labeled).Keys + Labels(StyleLabel, docStyles.Keys)
      ensures forall k :: k in docStyles ==> labeled[StyleLabel(k)] == StyleLabeled(PublishedStyle(path, k, docStyles[k], env))
      ensures forall l :: l in old(labeled) && l !in Labels(StyleLabel, docStyles.Keys) ==> labeled[l] == old(labeled)[l]
    {
      var remaining := docStyles.Keys;
      while remaining != {}
        invariant remaining <= docStyles.Keys
        invariant labeled.Keys == old(labeled).Keys + Labels(StyleLabel, docStyles.Keys - remaining)
        invariant forall k :: k in docStyles && k !in remaining
                    ==> labeled[StyleLabel(k)] == StyleLabeled(PublishedStyle(path, k, docStyles[k], env))
        invariant forall l :: l in old(labeled) && l !in Labels(StyleLabel, docStyles.Keys - remaining)
                    ==> labeled[l] == old(labeled)[l]
        decreases remaining
      {
        var key :| key in remaining;
        var name := StyleLabel(key);
        var base := AssetPath(path, Some(name));
        var style := env.resolveStyle(docStyles[key], base);
        AddLabeledAsset(name, StyleLabeled(style));
        forall k | k in docStyles && k !in remaining {
          LabelsDistinct(k, key);
        }
        LabelsGrow(StyleLabel, docStyles.Keys, remaining, key);
        remaining := remaining - {key};
      }
      assert docStyles.Keys - remaining == docStyles.Keys;
    }

    /**
     * Publish each template under "templates/<key>", its tree (if any) resolved against the
     * document path carrying that label.
     */
    method PublishTemplates(docTemplates: map<string, TemplateAsset>, env: Loader)
      modifies this
      ensures labeled.Keys == old(labeled).Keys + Labels(TemplateLabel, docTemplates.Keys)
      ensures forall k :: k in docTemplates
                ==> labeled[TemplateLabel(k)] == TemplateLabeled(PublishedTemplate(path, k, docTemplates[k], env))
      ensures forall l :: l in old(labeled) && l !in Labels(TemplateLabel, docTemplates.Keys) ==> labeled[l] == old(labeled)[l]
    {
      var remaining := docTemplates.Keys;
      while remaining != {}
        invariant remaining <= docTemplates.Keys
        invariant labeled.Keys == old(labeled).Keys + Labels(TemplateLabel, docTemplates.Keys - remaining)
        invariant forall k :: k in docTemplates && k !in remaining
                    ==> labeled[TemplateLabel(k)] == TemplateLabeled(PublishedTemplate(path, k, docTemplates[k], env))
        invariant forall l :: l in old(labeled) && l !in Labels(TemplateLabel, docTemplates.Keys - remaining)
                    ==> labeled[l] == old(labeled)[l]
        decreases remaining
      {
        var key :| key in remaining;
        var name := TemplateLabel(key);
        var base := AssetPath(path, Some(name));
        var template := docTemplates[key];
        if template.content.Some? {
          template := template.(content := Some(VisitTemplateNode(template.content.value, base, env)));
        }
        AddLabeledAsset(name, TemplateLabeled(template));
        forall k | k in docTemplates && k !in remaining {
          LabelsDistinct(k, key);
        }
        LabelsGrow(TemplateLabel, docTemplates.Keys, remaining, key);
        remaining := remaining - {key};
      }
      assert docTemplates.Keys - remaining == docTemplates.Keys;
    }

    /**
     * Publish every style and every template of the document under its label. The document's
     * maps are drained, so what is returned is empty; other labels keep their assets.
     */
    method Load(doc: AssetSerial, env: Loader) returns (entries: AssetSerial)
      modifies this
      ensures entries == AssetSerial(map[], map[])
      ensures labeled.Keys == old(labeled).Keys + Labels(StyleLabel, doc.styles.Keys) + Labels(TemplateLabel, doc.templates.Keys)
      ensures forall k :: k in doc.styles ==> labeled[StyleLabel(k)] == StyleLabeled(PublishedStyle(path, k, doc.styles[k], env))
      ensures forall k :: k in doc.templates
                ==> labeled[TemplateLabel(k)] == TemplateLabeled(PublishedTemplate(path, k, doc.templates[k], env))
      ensures forall l :: l in old(labeled) && l !in Labels(StyleLabel, doc.styles.Keys) && l !in Labels(TemplateLabel, doc.templates.Keys)
                ==> labeled[l] == old(labeled)[l]
    {
      PublishStyles(doc.styles, env);
      PublishTemplates(doc.templates, env);
      forall k | k in doc.styles
        ensures StyleLabel(k) !in Labels(TemplateLabel, doc.templates.Keys)
      {
        forall k2 | k2 in doc.templates {
          LabelsDistinct(k, k2);
        }
      }
      entries := AssetSerial(map[], map[]);
    }
  }
}
