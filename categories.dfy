/**
 * The category controller: slugs derived from names, the duplicate-slug and
 * parent-existence checks, and the merge-style update.
 */
module Categories {
  import opened Common
  import opened Models
  import opened Store

  /** Some category already has this slug (`Category.findOne({ slug })`). */
  predicate SlugTaken(categories: map<Id, Category>, slug: string) {
    exists id :: id in categories && categories[id].slug == slug
  }

  /** No two categories share a slug. */
  predicate UniqueSlugs(categories: map<Id, Category>) {
    forall a, b :: a in categories && b in categories && categories[a].slug == categories[b].slug ==> a == b
  }

  /** A parent reference that is given must name an existing category. */
  predicate ParentKnown(categories: map<Id, Category>, parent: Option<Id>) {
    parent.None? || parent.value in categories
  }

  /** The body of a create request; a missing or empty parent is None. */
  datatype CategoryForm = CategoryForm(name: string, description: string, image: string, parent: Option<Id>)

  /** The body of an update request. */
  datatype CategoryPatch = CategoryPatch(
    name: Option<string>, description: Option<string>, image: Option<string>,
    parent: Option<Id>, isActive: Option<bool>)

  /**
   * The field merge of updateCategory: the slug follows a given name; name,
   * description, image and parent keep their values when the new one is
   * falsy; isActive is replaced whenever it is given.
   */
  function MergeCategory(c: Category, p: CategoryPatch): (r: Category)
    ensures r.slug == (if p.name.Some? && p.name.value != "" then Slugify(p.name.value) else c.slug)
    ensures r.name == (if p.name.Some? && p.name.value != "" then p.name.value else c.name)
    ensures r.description == (if p.description.Some? && p.description.value != "" then p.description.value else c.description)
    ensures r.image == (if p.image.Some? && p.image.value != "" then p.image.value else c.image)
    ensures r.parent == (if p.parent.Some? then p.parent else c.parent)
    ensures r.isActive == (if p.isActive.Some? then p.isActive.value else c.isActive)
  {
    var slug := if p.name.Some? && p.name.value != "" then Slugify(p.name.value) else c.slug;
    c.(name := OrStr(p.name, c.name),
       slug := slug,
       description := OrStr(p.description, c.description),
       image := OrStr(p.image, c.image),
       parent := if p.parent.Some? then p.parent else c.parent,
       isActive := p.isActive.Or(c.isActive))
  }

  /** An empty update leaves the category as it was. */
  lemma MergeNothing(c: Category)
    ensures MergeCategory(c, CategoryPatch(None, None, None, None, None)) == c
  {
  }

  /** GET /api/categories/:id */
  method GetCategoryById(db: Database, id: Id) returns (r: Result<Category>)
    ensures id in db.categories <==> r.Ok?
    ensures r == if id in db.categories then Ok(db.categories[id]) else Err(404, "Category not found")
  {
    if id in db.categories {
      r := Ok(db.categories[id]);
    } else {
      r := Err(404, "Category not found");
    }
  }

  /** POST /api/categories: the duplicate slug is checked before the parent. */
  method CreateCategory(db: Database, form: CategoryForm, newId: Id) returns (r: Result<Category>)
    requires newId !in db.categories
    modifies db`categories
    ensures SlugTaken(old(db.categories), Slugify(form.name)) ==> r == Err(400, "Category with this name already exists")
    ensures !SlugTaken(old(db.categories), Slugify(form.name)) && !ParentKnown(old(db.categories), form.parent) ==>
              r == Err(400, "Parent category not found")
    ensures r.Err? ==> db.categories == old(db.categories)
    ensures r.Ok? <==> !SlugTaken(old(db.categories), Slugify(form.name)) && ParentKnown(old(db.categories), form.parent)
    ensures r.Ok? ==>
              r.value == Category(form.name, form.description, Slugify(form.name), form.image, form.parent, true) &&
              db.categories == old(db.categories)[newId := r.value]
    ensures UniqueSlugs(old(db.categories)) ==> UniqueSlugs(db.categories)
  {
    var slug := Slugify(form.name);
    if exists id :: id in db.categories && db.categories[id].slug == slug {
      return Err(400, "Category with this name already exists");
    }
    if form.parent.Some? && form.parent.value !in db.categories {
      return Err(400, "Parent category not found");
    }
    var category := Category(form.name, form.description, slug, form.image, form.parent, true);
    db.categories := db.categories[newId := category];
    r := Ok(category);
  }

  /** PUT /api/categories/:id: an unknown id is 404; an unknown parent is 400 and leaves the category as it was. */
  method UpdateCategory(db: Database, id: Id, patch: CategoryPatch) returns (r: Result<Category>)
    modifies db`categories
    ensures id !in old(db.categories) ==> r == Err(404, "Category not found")
    ensures id in old(db.categories) && !ParentKnown(old(db.categories), patch.parent) ==> r == Err(400, "Parent category not found")
    ensures r.Err? ==> db.categories == old(db.categories)
    ensures r.Ok? <==> id in old(db.categories) && ParentKnown(old(db.categories), patch.parent)
    ensures r.Ok? ==>
              r.value == MergeCategory(old(db.categories)[id], patch) &&
              db.categories == old(db.categories)[id := r.value]
    // every parent reference written is to an existing category
    ensures r.Ok? ==> ParentKnown(db.categories, r.value.parent) || r.value.parent == old(db.categories)[id].parent
  {
    if id !in db.categories {
      return Err(404, "Category not found");
    }
    if patch.parent.Some? && patch.parent.value !in db.categories {
      return Err(400, "Parent category not found");
    }
    var category := MergeCategory(db.categories[id], patch);
    db.categories := db.categories[id := category];
    r := Ok(category);
  }

  /** DELETE /api/categories/:id */
  method DeleteCategory(db: Database, id: Id) returns (r: Result<string>)
    modifies db`categories
    ensures id !in old(db.categories) ==> r == Err(404, "Category not found") && db.categories == old(db.categories)
    ensures id in old(db.categories) ==> r == Ok("Category removed") && db.categories == old(db.categories) - {id}
    ensures UniqueSlugs(old(db.categories)) ==> UniqueSlugs(db.categories)
  {
    if id !in db.categories {
      return Err(404, "Category not found");
    }
    db.categories := db.categories - {id};
    r := Ok("Category removed");
  }
}
