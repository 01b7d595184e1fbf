/** The six sample links written into an empty store on first start. */
module MockData {
  import opened Timestamp
  import opened Records

  const MockLinks: seq<Link> := [
    LinkRecord("1", "https://example.com/react-best-practices",
      "React Best Practices for 2024",
      "A comprehensive guide to writing clean, maintainable React code with the latest best practices and patterns.",
      "https://images.pexels.com/photos/11035380/pexels-photo-11035380.jpeg?auto=compress&cs=tinysrgb&w=800",
      "Work", ["React", "JavaScript", "Frontend", "Best Practices"], true, false,
      Instant(1_705_276_800_000)),
    LinkRecord("2", "https://example.com/machine-learning-intro",
      "Introduction to Machine Learning",
      "Learn the fundamentals of machine learning, including supervised and unsupervised learning techniques.",
      "https://images.pexels.com/photos/8386440/pexels-photo-8386440.jpeg?auto=compress&cs=tinysrgb&w=800",
      "Study", ["Machine Learning", "AI", "Data Science", "Python"], false, true,
      Instant(1_705_190_400_000)),
    LinkRecord("3", "https://example.com/design-systems",
      "Building Scalable Design Systems",
      "How to create and maintain design systems that scale across large organizations and multiple products.",
      "https://images.pexels.com/photos/196644/pexels-photo-196644.jpeg?auto=compress&cs=tinysrgb&w=800",
      "Work", ["Design Systems", "UI/UX", "Frontend", "Component Library"], true, true,
      Instant(1_705_104_000_000)),
    LinkRecord("4", "https://example.com/productivity-tips",
      "10 Productivity Tips for Remote Work",
      "Proven strategies to stay productive and maintain work-life balance while working remotely.",
      "https://images.pexels.com/photos/4226140/pexels-photo-4226140.jpeg?auto=compress&cs=tinysrgb&w=800",
      "Personal", ["Productivity", "Remote Work", "Tips", "Work-Life Balance"], false, false,
      Instant(1_705_017_600_000)),
    LinkRecord("5", "https://example.com/typescript-advanced",
      "Advanced TypeScript Patterns",
      "Deep dive into advanced TypeScript features including conditional types, mapped types, and template literals.",
      "https://images.pexels.com/photos/270348/pexels-photo-270348.jpeg?auto=compress&cs=tinysrgb&w=800",
      "Work", ["TypeScript", "JavaScript", "Advanced", "Programming"], false, true,
      Instant(1_704_931_200_000)),
    LinkRecord("6", "https://example.com/cooking-basics",
      "Essential Cooking Techniques Every Beginner Should Know",
      "Master these fundamental cooking techniques to become a more confident and versatile home cook.",
      "https://images.pexels.com/photos/1109197/pexels-photo-1109197.jpeg?auto=compress&cs=tinysrgb&w=800",
      "Fun", ["Cooking", "Food", "Techniques", "Beginners"], true, false,
      Instant(1_704_844_800_000))
  ]
}
